/** Whole runs of the hub, server restarts included: what always holds, and what is published. */
module HubRuns {
  import opened Collections
  import opened HubModel
  import opened HubInvariants
  import opened HubSteps

  datatype Op =
    | SignsIn(u: UserId, admin: bool, key: Option<EncryptionKey>, rejoin: Option<RoomId>, hasKey: bool, luck: Luck, again: Luck)
    | Hangs(u: UserId, conn: ConnId, luck: Luck)
    | Removes(u: UserId, luck: Luck)
    | Goes(u: UserId, target: Option<RoomId>, hasKey: bool, luck: Luck)
    | Speaks(u: UserId, deafened: bool, share: Option<int>, allowed: bool)
    | Watches(u: UserId, ids: seq<MediaId>)
    | Rekeys(u: UserId, newKey: EncryptionKey, allowed: bool, luck: Luck)
    | Kicks(whom: UserId, room: RoomId, allowed: bool, luck: Luck)
    | Deletes(room: RoomId, allowed: bool, lucks: UserId -> Luck, deletes: bool)
    | Adds(creates: bool)
    | Restarts

  function Apply(h: Hub, op: Op): Hub {
    match op
    case SignsIn(u, admin, key, rejoin, hasKey, luck, again) => Connect(h, u, admin, key, rejoin, hasKey, luck, again).0
    case Hangs(u, conn, luck) => Disconnect(h, u, conn, luck)
    case Removes(u, luck) => Evict(h, u, luck)
    case Goes(u, target, hasKey, luck) => Place(h, u, target, hasKey, luck).0
    case Speaks(u, deafened, share, allowed) => SetMedia(h, u, deafened, share, allowed).0
    case Watches(u, ids) => SetWatched(h, u, ids).0
    case Rekeys(u, key, allowed, luck) => SetEncryptionKey(h, u, key, allowed, luck).0
    case Kicks(target, room, allowed, luck) => KickFromRoom(h, target, room, allowed, luck).0
    case Deletes(room, allowed, lucks, deletes) => DeleteRoom(h, room, allowed, lucks, deletes).0
    case Adds(creates) => AddRoom(h, creates).0
    case Restarts => Started(h.storedEpochs, h.nextRoom, h.nextMedia)
  }

  function Run(h: Hub, ops: seq<Op>): Hub
    decreases |ops|
  {
    if ops == [] then h else Run(Apply(h, ops[0]), ops[1..])
  }

  lemma ApplyKeeps(h: Hub, op: Op)
    requires HubInv(h)
    ensures HubInv(Apply(h, op))
  {
    hide HubInv, Connect, Disconnect, Evict, Place, SetMedia, SetWatched, SetEncryptionKey, KickFromRoom, DeleteRoom, AddRoom;
    match op
    case SignsIn(u, admin, key, rejoin, hasKey, luck, again) => ConnectKeeps(h, u, admin, key, rejoin, hasKey, luck, again);
    case Hangs(u, conn, luck) => DisconnectKeeps(h, u, conn, luck);
    case Removes(u, luck) => EvictKeeps(h, u, luck);
    case Goes(u, target, hasKey, luck) => PlaceKeeps(h, u, target, hasKey, luck);
    case Speaks(u, deafened, share, allowed) => SetMediaKeeps(h, u, deafened, share, allowed);
    case Watches(u, ids) => SetWatchedKeeps(h, u, ids);
    case Rekeys(u, key, allowed, luck) => SetKeyKeeps(h, u, key, allowed, luck);
    case Kicks(target, room, allowed, luck) => KickKeeps(h, target, room, allowed, luck);
    case Deletes(room, allowed, lucks, deletes) => DeleteKeeps(h, room, allowed, lucks, deletes);
    case Adds(creates) => AddKeeps(h, creates);
    case Restarts => RestartKeeps(h);
  }

  lemma RestartKeeps(h: Hub)
    requires HubInv(h)
    ensures HubInv(Started(h.storedEpochs, h.nextRoom, h.nextMedia))
  {
    hide Fresh, AllKnow, InStep, IdsApart, AllNumbered;
    StartKeeps(h.storedEpochs, h.nextRoom, h.nextMedia);
  }

  lemma {:induction false} RunsKeep(h: Hub, ops: seq<Op>)
    requires HubInv(h)
    ensures HubInv(Run(h, ops))
    decreases |ops|
  {
    hide HubInv, Apply;
    if ops != [] {
      ApplyKeeps(h, ops[0]);
      RunsKeep(Apply(h, ops[0]), ops[1..]);
    }
  }

  lemma {:induction false} RunsJoin(h: Hub, first: seq<Op>, second: seq<Op>)
    ensures Run(h, first + second) == Run(Run(h, first), second)
    decreases |first|
  {
    hide Apply;
    if first == [] {
      assert first + second == second;
    } else {
      assert (first + second)[1..] == first[1..] + second;
      RunsJoin(Apply(h, first[0]), first[1..], second);
    }
  }

  lemma StartKeeps(epochs: map<RoomId, Epoch>, nextRoom: RoomId, nextMedia: nat)
    requires nextMedia <= U32_MAX + 1 && forall r :: r in epochs ==> r < nextRoom && epochs[r] <= U32_MAX
    ensures HubInv(Started(epochs, nextRoom, nextMedia))
  {
    hide AudiencesIn;
    var h := Started(epochs, nextRoom, nextMedia);
    Empty(TableOf(h.sessions, h.rooms));
    forall r ensures r !in AllAudiences(h.sessions, h.rooms) {
      if r in h.rooms {
        NobodyListens(h.sessions, h.rooms, r);
      }
    }
    Empty(AllAudiences(h.sessions, h.rooms));
    forall r | r in h.rooms ensures SharesIn(h, r) <= MAX_ROOM_SHARES {
      assert Sharing(h.sessions, {}) == {};
    }
    SameSet(h.storedEpochs.Keys, h.rooms.Keys);
  }

  /** In every state there can be: a session names a room just when the room's members contain the
      user, has tracks just while in one, and rooms stay within their members and shares. */
  lemma MembershipHolds(epochs: map<RoomId, Epoch>, nextRoom: RoomId, nextMedia: nat, ops: seq<Op>, u: UserId, r: RoomId)
    requires nextMedia <= U32_MAX + 1 && forall r :: r in epochs ==> r < nextRoom && epochs[r] <= U32_MAX
    ensures var h := Run(Started(epochs, nextRoom, nextMedia), ops);
      && (RoomOf(h.sessions, u) == Some(r) <==> u in MembersOf(h.rooms, r))
      && (u in h.sessions ==> (h.sessions[u].tracks.Some? <==> h.sessions[u].room.Some?))
      && |MembersOf(h.rooms, r)| <= MAX_ROOM_MEMBERS && SharesIn(h, r) <= MAX_ROOM_SHARES
      && |h.sessions| <= MAX_SIGNED_IN
  {
    hide TableOf, AllAudiences, IdsApart, ConnsDiffer, IsStored, Numbered;
    StartKeeps(epochs, nextRoom, nextMedia);
    RunsKeep(Started(epochs, nextRoom, nextMedia), ops);
    var h := Run(Started(epochs, nextRoom, nextMedia), ops);
    if u in h.sessions {
      assert SessionFits(h.sessions, h.rooms, u);
    }
    if r in h.rooms {
      assert u in h.rooms[r].members ==> RoomOf(h.sessions, u) == Some(r);
      assert SharesIn(h, r) <= MAX_ROOM_SHARES;
    } else {
      assert Sharing(h.sessions, {}) == {};
    }
  }

  // ---- What is published ---------------------------------------------------------------

  /** After every operation of every run, the published table is what a recomputation would
      make it, and the last `Audiences` sent to a member's connection, which has the highest
      number, lists the receivers of their room's shares as they are now. */
  lemma RoutesAreFresh(epochs: map<RoomId, Epoch>, nextRoom: RoomId, nextMedia: nat, ops: seq<Op>, u: UserId)
    requires nextMedia <= U32_MAX + 1 && forall r :: r in epochs ==> r < nextRoom && epochs[r] <= U32_MAX
    ensures var h := Run(Started(epochs, nextRoom, nextMedia), ops);
      && h.table == TableOf(h.sessions, h.rooms)
      && (u in h.sessions && h.sessions[u].room.Some? ==>
            var told := h.sessions[u].told;
            && told != []
            && told[|told| - 1].shares == AudiencesIn(h.sessions, h.rooms, h.sessions[u].room.value)
            && forall i :: 0 <= i < |told| - 1 ==> told[i].seqNo < told[|told| - 1].seqNo)
  {
    hide TableOf, AudiencesIn, IdsApart, WithinCaps, ConnsDiffer, IsStored;
    var start := Started(epochs, nextRoom, nextMedia);
    StartKeeps(epochs, nextRoom, nextMedia);
    RunsKeep(start, ops);
    var h := Run(start, ops);
    if u in h.sessions && h.sessions[u].room.Some? {
      assert SessionFits(h.sessions, h.rooms, u) && KnowsLast(h.sessions[u], h.audiences) && Numbered(h.sessions[u]);
      ListsAre(h.sessions, h.rooms, h.sessions[u].room.value);
    }
  }

  /** What the published table says: for a member's tracks, just the routes of that member in
      their room, and nothing for any other media id. */
  lemma TableForwards(h: Hub, id: MediaId)
    requires HubInv(h)
    ensures id in h.table <==> exists u :: SendsOn(h.sessions, u, id)
    ensures forall u :: SendsOn(h.sessions, u, id) ==>
      && h.sessions[u].room.Some?
      && var routes := RoutesOf(h.sessions, MembersOf(h.rooms, h.sessions[u].room.value), u);
         id in routes && h.table[id] == routes[id]
  {
    hide AllAudiences, RoutesOf, WithinCaps, ConnsDiffer, IsStored, Numbered;
    var users := Placed(h.sessions);
    TableHas(h.sessions, h.rooms, users, id);
    forall u | SendsOn(h.sessions, u, id)
      ensures h.sessions[u].room.Some? && id in h.table
      ensures var routes := RoutesOf(h.sessions, MembersOf(h.rooms, h.sessions[u].room.value), u);
              id in routes && h.table[id] == routes[id]
    {
      assert SessionFits(h.sessions, h.rooms, u);
      assert u in SendersAmong(h.sessions, users, id);
      var v := Max(SendersAmong(h.sessions, users, id));
      if u != v {
        assert Apart(h.sessions[u].tracks.value, h.sessions[v].tracks.value);
      }
      RoutesHas(h.sessions, MembersOf(h.rooms, h.sessions[u].room.value), u, id);
    }
    if id in h.table {
      var u: int := Pick(SendersAmong(h.sessions, users, id));
      assert SendsOn(h.sessions, u, id);
    }
  }

  lemma RoutesHas(sessions: Sessions, members: set<UserId>, u: UserId, id: MediaId)
    requires SendsOn(sessions, u, id)
    ensures id in RoutesOf(sessions, members, u)
  {
  }
}
