/**
 The room of the protocol is a room of the hub: what the hub does to its members, epoch and media
 ids when someone enters, leaves, is taken out or publishes is what the protocol's moves do.
 */
module NetHub {
  import opened Collections
  import opened HubModel
  import opened HubInvariants
  import opened HubSteps
  import opened HubEpochs
  import KeyModel
  import NetModel

  /** The hub's room shows what the protocol's does: its epoch, its members and their tracks. */
  ghost predicate Shows(h: Hub, w: NetModel.World, n: NetModel.Net) {
    && w.room in h.rooms && h.rooms[w.room].epoch == n.epoch && h.rooms[w.room].members == n.members.Keys
    && forall u :: u in n.members ==> HasTracks(h, u, n.members[u])
  }

  ghost predicate HasTracks(h: Hub, u: UserId, tracks: KeyModel.Tracks) {
    && u in h.sessions && h.sessions[u].tracks.Some?
    && var t := h.sessions[u].tracks.value;
       tracks == KeyModel.Tracks(t.mic, [KeyModel.ShareTracks(t.video, t.audio)])
  }

  // ---- What placing does to one room ---------------------------------------------------

  /** The tracks and the room that placing `u` leaves `v` with. */
  lemma PlacedSession(h: Hub, u: UserId, target: Option<RoomId>, hasKey: bool, luck: Luck, v: UserId)
    requires u in h.sessions && h.sessions[u].room != target && Place(h, u, target, hasKey, luck).1.Done?
    ensures var t := Place(h, u, target, hasKey, luck).0;
      && (v in t.sessions <==> v in h.sessions)
      && (v in h.sessions ==>
            t.sessions[v].tracks == if v != u then h.sessions[v].tracks else if target.Some? then Reserve(h, luck) else None)
      && t.nextMedia == if target.Some? then h.nextMedia + TRACKS_PER_MEMBERSHIP else h.nextMedia
  {
    hide Rebuild, Move, Bump, PlacementOf, Reserve;
    var rooms := OneRoom(h.sessions[u].room) + OneRoom(target);
    var tracks := if target.Some? then Reserve(h, luck) else None;
    var reserved := if target.Some? then h.(nextMedia := h.nextMedia + TRACKS_PER_MEMBERSHIP) else h;
    var moved := Move(Bump(reserved, rooms), u, target, tracks);
    BumpStands(reserved, rooms);
    MoveTouches(Bump(reserved, rooms), u, target, tracks);
    RebuildMovesNobody(moved, v);
    OthersStand(moved, u);
    OthersStand(Rebuild(moved), u);
    PlacementTracks(Rebuild(moved), u, v);
  }

  lemma PlacementTracks(h: Hub, u: UserId, v: UserId)
    ensures var t := PlacementOf(h, u).0;
      (v in t.sessions <==> v in h.sessions) && (v in h.sessions ==> t.sessions[v].tracks == h.sessions[v].tracks)
  {
  }

  /** The members and epoch that placing `u` leaves a room they leave or enter with. */
  lemma PlacedRoom(h: Hub, u: UserId, target: Option<RoomId>, hasKey: bool, luck: Luck, r: RoomId)
    requires HubInv(h) && u in h.sessions && h.sessions[u].room != target && Place(h, u, target, hasKey, luck).1.Done?
    requires r in h.rooms && (h.sessions[u].room == Some(r) || target == Some(r))
    ensures var t := Place(h, u, target, hasKey, luck).0;
      r in t.rooms && t.rooms[r] == Entry(h.rooms[r].epoch + 1, if target == Some(r) then h.rooms[r].members + {u} else h.rooms[r].members - {u})
  {
    hide Rebuild, Move, Bump, PlacementOf, Reserve, Fresh, AllKnow, IdsApart, WithinCaps;
    var rooms := OneRoom(h.sessions[u].room) + OneRoom(target);
    var tracks := if target.Some? then Reserve(h, luck) else None;
    var reserved := if target.Some? then h.(nextMedia := h.nextMedia + TRACKS_PER_MEMBERSHIP) else h;
    var moved := Move(Bump(reserved, rooms), u, target, tracks);
    BumpInStep(reserved, rooms);
    BumpStands(reserved, rooms);
    BumpedRooms(reserved, rooms, r);
    MovedMembers(Bump(reserved, rooms), u, target, tracks, r);
    OthersStand(moved, u);
    OthersStand(Rebuild(moved), u);
  }

  // ---- The moves of the protocol -------------------------------------------------------

  /** Someone entering the room of the hub enters that of the protocol. */
  lemma PlacingEnters(h: Hub, w: NetModel.World, n: NetModel.Net, u: UserId, peers: seq<KeyModel.Peer>, hasKey: bool, luck: Luck)
    requires HubInv(h) && Shows(h, w, n) && h.nextMedia == n.nextId
    requires u in n.links && u !in n.members && Place(h, u, Some(w.room), hasKey, luck).1.Done?
    ensures var t := Place(h, u, Some(w.room), hasKey, luck).0;
            var m := NetModel.EnterRoomOf(w, n, u, peers);
      Shows(t, w, m) && t.nextMedia == m.nextId
  {
    hide HubInv, Place;
    EntersFromElsewhere(h, u, w.room, hasKey, luck);
    var t, m := Place(h, u, Some(w.room), hasKey, luck).0, NetModel.EnterRoomOf(w, n, u, peers);
    PlacedRoom(h, u, Some(w.room), hasKey, luck, w.room);
    SameSet(t.rooms[w.room].members, m.members.Keys);
    forall v | v in m.members ensures HasTracks(t, v, m.members[v]) {
      PlacedSession(h, u, Some(w.room), hasKey, luck, v);
      assert v != u ==> HasTracks(h, v, n.members[v]);
    }
    PlacedSession(h, u, Some(w.room), hasKey, luck, u);
  }

  lemma EntersFromElsewhere(h: Hub, u: UserId, r: RoomId, hasKey: bool, luck: Luck)
    requires HubInv(h) && Place(h, u, Some(r), hasKey, luck).1.Done? && u !in MembersOf(h.rooms, r)
    ensures u in h.sessions && h.sessions[u].room != Some(r)
    ensures Reserve(h, luck) == Some(Tracks(h.nextMedia, h.nextMedia + 1, h.nextMedia + 2))
  {
    hide Fresh, AllKnow, IdsApart, WithinCaps, Rebuild, Move, Bump, PlacementOf;
    assert SessionFits(h.sessions, h.rooms, u);
  }

  /** Someone placed out of the room of the hub leaves that of the protocol. */
  lemma PlacingLeaves(h: Hub, w: NetModel.World, n: NetModel.Net, u: UserId, peers: seq<KeyModel.Peer>, target: Option<RoomId>,
                      hasKey: bool, luck: Luck)
    requires HubInv(h) && Shows(h, w, n) && target != Some(w.room)
    requires u in n.links && u in n.members && Place(h, u, target, hasKey, luck).1.Done?
    ensures Shows(Place(h, u, target, hasKey, luck).0, w, NetModel.LeaveRoomOf(w, n, u, peers))
  {
    hide HubInv, Place;
    InRoomIs(h, u, w.room);
    var t, m := Place(h, u, target, hasKey, luck).0, NetModel.LeaveRoomOf(w, n, u, peers);
    PlacedRoom(h, u, target, hasKey, luck, w.room);
    SameSet(t.rooms[w.room].members, m.members.Keys);
    forall v | v in m.members ensures HasTracks(t, v, m.members[v]) {
      PlacedSession(h, u, target, hasKey, luck, v);
      assert HasTracks(h, v, n.members[v]);
    }
  }

  /** Whoever is signed out of the hub, without a forced leave, is taken out of the protocol's
      room, as when a connection is lost. */
  lemma EvictingTakesOut(h: Hub, w: NetModel.World, n: NetModel.Net, u: UserId, peers: seq<KeyModel.Peer>, luck: Luck)
    requires HubInv(h) && Shows(h, w, n) && u in n.members && LeavesCleanly(h, u, luck)
    ensures Shows(Evict(h, u, luck), w, NetModel.TakeOut(w, n, u, peers))
  {
    hide HubInv, Place;
    InRoomIs(h, u, w.room);
    LeavingIsPlacing(h, u, luck);
    var t, m := Evict(h, u, luck), NetModel.TakeOut(w, n, u, peers);
    PlacedRoom(h, u, None, false, luck, w.room);
    SameSet(t.rooms[w.room].members, m.members.Keys);
    forall v | v in m.members ensures HasTracks(t, v, m.members[v]) {
      PlacedSession(h, u, None, false, luck, v);
      assert HasTracks(h, v, n.members[v]);
    }
  }

  /** Whoever is kicked from the room of the hub, without a forced leave, is kicked from that of
      the protocol. */
  lemma KickingTakesOut(h: Hub, w: NetModel.World, n: NetModel.Net, u: UserId, peers: seq<KeyModel.Peer>, luck: Luck)
    requires HubInv(h) && Shows(h, w, n) && u in n.members && u in n.links && LeavesCleanly(h, u, luck)
    ensures KickFromRoom(h, u, w.room, true, luck).1.Done?
    ensures Shows(KickFromRoom(h, u, w.room, true, luck).0, w, NetModel.KickedOut(w, n, u, peers, true))
  {
    hide HubInv, Place;
    InRoomIs(h, u, w.room);
    LeavingIsPlacing(h, u, luck);
    var t, m := LeaveRoom(h, u, luck), NetModel.KickedOut(w, n, u, peers, true);
    PlacedRoom(h, u, None, false, luck, w.room);
    SameSet(t.rooms[w.room].members, m.members.Keys);
    forall v | v in m.members ensures HasTracks(t, v, m.members[v]) {
      PlacedSession(h, u, None, false, luck, v);
      assert HasTracks(h, v, n.members[v]);
    }
  }

  lemma LeavingIsPlacing(h: Hub, u: UserId, luck: Luck)
    requires u in h.sessions && h.sessions[u].room.Some? && LeavesCleanly(h, u, luck)
    ensures Place(h, u, None, false, luck).1.Done? && LeaveRoom(h, u, luck) == Place(h, u, None, false, luck).0
  {
    hide Rebuild, Move, Bump, PlacementOf;
    assert OneRoom(h.sessions[u].room) + OneRoom(None) == OneRoom(h.sessions[u].room);
  }

  /** The wrapped secrets of a request, in some order, by recipient and length. */
  ghost predicate Lists(wrapped: seq<(UserId, nat)>, p: KeyModel.Publish) {
    && (forall i :: 0 <= i < |wrapped| ==> wrapped[i].0 in p.wrapped && wrapped[i].1 == KeyModel.WRAPPED_BYTES)
    && (forall u :: u in p.wrapped ==> exists i :: 0 <= i < |wrapped| && wrapped[i].0 == u)
    && (forall i, j :: 0 <= i < j < |wrapped| ==> wrapped[i].0 != wrapped[j].0)
  }

  /** The hub hands a request's wraps on if and only if the protocol's room accepts it. */
  lemma PublishingIsAccepting(h: Hub, w: NetModel.World, n: NetModel.Net, u: UserId, p: KeyModel.Publish, wrapped: seq<(UserId, nat)>)
    requires HubInv(h) && Shows(h, w, n) && Lists(wrapped, p) && RoomOf(h.sessions, u) == Some(w.room)
    ensures MayPublish(h, u, p.epoch, wrapped) <==> NetModel.Accepted(n, u, p)
  {
    hide HubInv;
    OnlyThere(h, u, w.room, w.room);
    if MayPublish(h, u, p.epoch, wrapped) {
      forall v ensures v in p.wrapped.Keys ==> v in n.members.Keys - {u} {
        if v in p.wrapped {
          var i :| 0 <= i < |wrapped| && wrapped[i].0 == v;
        }
      }
      Within(p.wrapped.Keys, n.members.Keys - {u});
    }
  }
}
