/**
 The hub itself, and the part of the database it keeps epochs and media ids in. Each method is
 proved to do what the function of its name in `HubModel` says.
 */
module Hubs {
  import opened Collections
  import opened HubModel
  import opened HubInvariants
  import opened HubSteps
  import opened HubLoops

  /** The database, as the counters and rows the hub relies on. `writes` says whether a
      transaction commits. */
  class Database {
    var nextMedia: nat
    var epochs: map<RoomId, Epoch>

    constructor (nextMedia: nat, epochs: map<RoomId, Epoch>)
      ensures this.nextMedia == nextMedia && this.epochs == epochs
    {
      this.nextMedia, this.epochs := nextMedia, epochs;
    }

    /** Reserves consecutive media ids, unless the database fails or they are exhausted. */
    method AllocateMediaIds(count: nat, writes: bool) returns (first: Option<nat>)
      modifies `nextMedia
      ensures first == if writes && old(nextMedia) + count - 1 <= U32_MAX then Some(old(nextMedia)) else None
      ensures nextMedia == if first.Some? then old(nextMedia) + count else old(nextMedia)
    {
      if !writes || nextMedia + count - 1 > U32_MAX {
        return None;
      }
      first := Some(nextMedia);
      nextMedia := nextMedia + count;
    }

    /** One transaction: a failed write leaves each stored epoch as it was. */
    method SetEpochs(changes: seq<(RoomId, Epoch)>, writes: bool) returns (ok: bool)
      modifies `epochs
      ensures ok == writes
      ensures epochs == if writes then Stored(old(epochs), changes) else old(epochs)
    {
      if !writes {
        return false;
      }
      var k := 0;
      while k < |changes|
        invariant 0 <= k <= |changes|
        invariant epochs == Stored(old(epochs), changes[..k])
      {
        assert changes[..k + 1][..k] == changes[..k];
        if changes[k].0 in epochs {
          epochs := epochs[changes[k].0 := changes[k].1];
        }
        k := k + 1;
      }
      assert changes[..k] == changes;
      ok := true;
    }
  }

  /** Stored epochs after updating the rows there are. */
  function Stored(epochs: map<RoomId, Epoch>, changes: seq<(RoomId, Epoch)>): map<RoomId, Epoch> {
    if changes == [] then epochs else
    var before := Stored(epochs, changes[..|changes| - 1]);
    var last := changes[|changes| - 1];
    if last.0 in before then before[last.0 := last.1] else before
  }

  class Hub {
    const db: Database
    var sessions: Sessions
    var rooms: Rooms
    var table: Table
    /** The announced receivers of every share, by room. A room without any has no entry. */
    var audiences: map<RoomId, seq<Audience>>
    var nextConn: nat
    var nextRoom: RoomId

    ghost function View(): HubModel.Hub
      reads this, db
    {
      HubModel.Hub(sessions, rooms, table, audiences, nextConn, nextRoom, db.nextMedia, db.epochs)
    }

    ghost predicate Valid()
      reads this, db
    {
      HubInv(View())
    }

    constructor (db: Database, nextRoom: RoomId)
      requires db.nextMedia <= U32_MAX + 1 && forall r :: r in db.epochs ==> r < nextRoom && db.epochs[r] <= U32_MAX
      ensures View() == Started(db.epochs, nextRoom, db.nextMedia)
      ensures this.db == db
    {
      this.db := db;
      sessions, table, audiences, nextConn, this.nextRoom := map[], map[], map[], 0, nextRoom;
      rooms := map r | r in db.epochs :: Entry(db.epochs[r], {});
    }

    // ---- Routes ------------------------------------------------------------------------

    /** Makes the table and the lists those of now, and numbers an announcement to each member
        of a room whose list differs. */
    method RebuildRoutes()
      requires Sound(View())
      modifies `table, `audiences, `sessions
      ensures View() == Rebuild(old(View()))
    {
      hide TableOf, AllAudiences, AllTold, AudiencesIn;
      var routes, heard, changed := Recompute();
      ghost var before := View();
      table := routes;
      audiences := heard;
      TellChanged(changed, before);
    }

    /** Who receives what, from scratch, and which rooms it changed for. */
    method Recompute() returns (routes: Table, heard: map<RoomId, seq<Audience>>, changed: set<RoomId>)
      requires Sound(View())
      ensures routes == TableOf(sessions, rooms)
      ensures heard == AllAudiences(sessions, rooms)
      ensures changed == ChangedRooms(View())
    {
      hide AudiencesIn, TableAmong, AllAudiences, WithinCaps, ConnsDiffer, IsStored, Numbered, InStep, AudiencesAmong, MembersIn;
      routes, heard, changed := map[], map[], {};
      var left := rooms.Keys;
      ghost var done: set<RoomId> := {};
      NobodysTable(sessions, rooms);
      EveryMember(sessions, rooms);
      AudiencesOfNoneAndAll(sessions, rooms);
      while left != {}
        invariant done + left == rooms.Keys && done !! left
        invariant routes == TableAmong(sessions, rooms, MembersIn(rooms, done))
        invariant heard == AudiencesAmong(sessions, rooms, done)
        invariant forall r :: r in changed <==> r in done && AudiencesIn(sessions, rooms, r) != ListOf(audiences, r)
        decreases |left|
      {
        var room := Min(left);
        var list;
        routes, list := RoomRoutes(room, routes, MembersIn(rooms, done), done);
        AudiencesNext(sessions, rooms, done, room);
        MembersOfMore(rooms, done, room);
        MovesOver(rooms.Keys, done, left, room);
        if list != ListOf(audiences, room) {
          changed := changed + {room};
        }
        if list != [] {
          heard := heard[room := list];
        }
        left := left - {room};
        done := done + {room};
      }
      SameSet(done, rooms.Keys);
      forall r ensures r in changed <==> r in ChangedRooms(View()) {
      }
      SameSet(changed, ChangedRooms(View()));
    }

    /** Adds the routes of one room's members to a table, and lists who receives its shares. */
    method RoomRoutes(room: RoomId, before: Table, ghost users: set<UserId>, ghost done: set<RoomId>)
      returns (routes: Table, list: seq<Audience>)
      requires Sound(View()) && room in rooms && room !in done && users == MembersIn(rooms, done)
      requires before == TableAmong(sessions, rooms, users)
      ensures routes == TableAmong(sessions, rooms, users + rooms[room].members)
      ensures list == AudiencesIn(sessions, rooms, room)
    {
      hide TableAmong, RoutesOf, AudienceOf, MembersIn, WithinCaps, ConnsDiffer, IsStored, Numbered, InStep, IdsApart;
      var members := Ordered(rooms[room].members);
      OrderedHas(rooms[room].members);
      OrderedRises(rooms[room].members);
      routes, list := before, [];
      var k := 0;
      FirstNone(members);
      while k < |members|
        invariant 0 <= k <= |members|
        invariant routes == TableAmong(sessions, rooms, users + FirstOf(members, k))
        invariant list == AudienceList(sessions, rooms[room].members, members[..k])
      {
        var sender := members[k];
        assert sender in members;
        NotInOthers(sessions, rooms, done, room, sender);
        FirstMore(members, k);
        TableNext(sessions, rooms, db.nextMedia, users + FirstOf(members, k), sender, room);
        SameSet(users + FirstOf(members, k) + {sender}, users + FirstOf(members, k + 1));
        assert members[..k + 1][..k] == members[..k];
        var own, heard := SenderRoutes(sender, rooms[room].members);
        routes := routes + own;
        list := list + heard;
        k := k + 1;
      }
      FirstAll(members, rooms[room].members);
      assert members[..k] == members;
    }

    /** The routes of one member, and who receives their share while it runs. */
    method SenderRoutes(sender: UserId, members: set<UserId>) returns (routes: Table, heard: seq<Audience>)
      requires sender in sessions && sessions[sender].tracks.Some?
      ensures routes == RoutesOf(sessions, members, sender)
      ensures heard == AudienceOf(sessions, members, sender)
    {
      hide Hearing, Seeing, HearingShare, Receivers, HearsAll, SeesShare, HearsShare, ReceivesShare, Filter, Ordered;
      var s, t, all := sessions[sender], sessions[sender].tracks.value, Ordered(members);
      PickedInOrder(sessions, members, sender, t);
      var hearing := Filter(all, HearsAll(sessions, sender));
      var video := Filter(all, SeesShare(sessions, sender, t));
      var audio := Filter(all, HearsShare(sessions, sender, t));
      var receivers := Filter(all, ReceivesShare(sessions, sender, t));
      routes := map[t.mic := Route(s.conn, AudioKind, ConnsOf(sessions, hearing))];
      routes := routes[t.video := Route(s.conn, VideoKind, ConnsOf(sessions, video))];
      routes := routes[t.audio := Route(s.conn, AudioKind, ConnsOf(sessions, audio))];
      heard := if s.share.Some? && receivers != [] then [Audience(t.video, receivers)] else [];
    }

    /** Tells every member of the changed rooms who receives each share there now. */
    method TellChanged(changed: set<RoomId>, ghost before: HubModel.Hub)
      requires Sound(before) && sessions == before.sessions && rooms == before.rooms
      requires audiences == AllAudiences(sessions, rooms) && changed == ChangedRooms(before)
      modifies `sessions
      ensures sessions == AllTold(before)
    {
      hide AudiencesIn, AllAudiences, AllTold, ToldAmong, MembersIn, WithinCaps, ConnsDiffer, IsStored, Numbered, IdsApart, InStep;
      var left := changed;
      ghost var done: set<RoomId> := {};
      ToldNobody(before);
      EveryMember(before.sessions, before.rooms);
      ToldEveryone(before);
      while left != {}
        invariant done + left == changed && done !! left
        invariant sessions == ToldAmong(before, MembersIn(rooms, done))
        decreases |left|
      {
        var room := Min(left);
        MembersOfMore(rooms, done, room);
        ListsAre(before.sessions, before.rooms, room);
        TellRoom(room, MembersIn(rooms, done), done, before);
        MovesOver(changed, done, left, room);
        left := left - {room};
        done := done + {room};
      }
      assert done == changed;
    }

    method TellRoom(room: RoomId, ghost users: set<UserId>, ghost done: set<RoomId>, ghost before: HubModel.Hub)
      requires Sound(before) && rooms == before.rooms && room in rooms && room !in done && users == MembersIn(rooms, done)
      requires ListOf(audiences, room) == AudiencesIn(before.sessions, before.rooms, room)
      requires sessions == ToldAmong(before, users)
      modifies `sessions
      ensures sessions == ToldAmong(before, users + rooms[room].members)
    {
      hide AudiencesIn, ToldAmong, MembersIn, WithinCaps, ConnsDiffer, IsStored, Numbered, IdsApart, InStep;
      var left := rooms[room].members;
      ghost var told: set<UserId> := {};
      assert users + told == users;
      while left != {}
        invariant told + left == rooms[room].members && told !! left
        invariant sessions == ToldAmong(before, users + told)
        decreases |left|
      {
        var u := Min(left);
        NotInOthers(before.sessions, before.rooms, done, room, u);
        ToldNext(before, users + told, u, room);
        assert users + told + {u} == users + (told + {u});
        sessions := sessions[u := Told(sessions[u], ListOf(audiences, room))];
        left := left - {u};
        told := told + {u};
      }
      assert told == rooms[room].members;
    }

    // ---- Moving between rooms ----------------------------------------------------------

    /** Either every epoch goes up by one, in memory and in the database, or none does. */
    method BumpEpochs(which: seq<RoomId>, luck: Luck) returns (ok: bool)
      requires IsStored(View()) && forall i, j :: 0 <= i < j < |which| ==> which[i] != which[j]
      modifies `rooms, db`epochs
      ensures ok == CanBump(old(View()), Listed(which), luck)
      ensures View() == if ok then Bump(old(View()), Listed(which)) else old(View())
    {
      hide Bump, Stored;
      ghost var before := View();
      var changes: seq<(RoomId, Epoch)> := [];
      var k := 0;
      while k < |which|
        invariant 0 <= k <= |which|
        invariant |changes| == k
        invariant forall i :: 0 <= i < k ==>
          which[i] in rooms && rooms[which[i]].epoch + 1 <= U32_MAX && changes[i] == (which[i], rooms[which[i]].epoch + 1)
      {
        if which[k] !in rooms || rooms[which[k]].epoch + 1 > U32_MAX {
          CannotBump(before, which, k, luck);
          return false;
        }
        changes := changes + [(which[k], rooms[which[k]].epoch + 1)];
        k := k + 1;
      }
      assert forall r :: r in Listed(which) ==> r in before.rooms && before.rooms[r].epoch + 1 <= U32_MAX;
      ok := db.SetEpochs(changes, luck.epochsWrite);
      if !ok {
        return;
      }
      StoredAre(db.epochs, before.storedEpochs, before.rooms, which, changes);
      NoteEpochs(which, changes);
      BumpIs(before, Listed(which));
    }

    method NoteEpochs(which: seq<RoomId>, changes: seq<(RoomId, Epoch)>)
      requires |changes| == |which| && forall i, j :: 0 <= i < j < |which| ==> which[i] != which[j]
      requires forall i :: 0 <= i < |which| ==> which[i] in rooms && changes[i] == (which[i], rooms[which[i]].epoch + 1)
      modifies `rooms
      ensures rooms == RoomsBumped(old(rooms), Listed(which))
    {
      hide Listed, RoomsBumped;
      ghost var before := rooms;
      var k := 0;
      ListedNone(which);
      BumpedNone(before);
      while k < |changes|
        invariant 0 <= k <= |changes|
        invariant rooms == RoomsBumped(before, Listed(which[..k]))
      {
        ListedMore(which, k);
        BumpedMore(before, Listed(which[..k]), which[k]);
        rooms := rooms[changes[k].0 := rooms[changes[k].0].(epoch := changes[k].1)];
        k := k + 1;
      }
      assert which[..k] == which;
    }

    method AllocateTracks(luck: Luck) returns (tracks: Option<Tracks>)
      modifies db`nextMedia
      ensures tracks == Reserve(old(View()), luck)
      ensures db.nextMedia == old(db.nextMedia) + if tracks.Some? then TRACKS_PER_MEMBERSHIP else 0
    {
      var first := db.AllocateMediaIds(TRACKS_PER_MEMBERSHIP, luck.mediaWrites);
      if first.None? {
        return None;
      }
      tracks := Some(Tracks(first.value, first.value + 1, first.value + 2));
    }

    /** Where a session is and what it sends on; it shares and watches nothing yet. */
    method SetMembership(u: UserId, room: Option<RoomId>, tracks: Option<Tracks>)
      modifies `sessions
      ensures View() == HubModel.SetMembership(old(View()), u, room, tracks)
    {
      if u in sessions {
        sessions := sessions[u := sessions[u].(room := room, tracks := tracks, share := None, watching := [])];
      }
    }

    method Placement(u: UserId) returns (placement: HubModel.Placement)
      modifies `sessions
      ensures (View(), placement) == PlacementOf(old(View()), u)
    {
      if u !in sessions || sessions[u].room.None? {
        return Lobby;
      }
      var room := sessions[u].room.value;
      var shares := ListOf(audiences, room);
      sessions := sessions[u := Told(sessions[u], shares)];
      placement := InRoom(room, if room in rooms then rooms[room].epoch else 0, sessions[u].tracks,
                          Audiences(sessions[u].audienceSeq, shares));
    }

    /** Takes a user out of one room's members and puts them among another's. */
    method SwapMembers(u: UserId, current: Option<RoomId>, target: Option<RoomId>)
      modifies `rooms
      ensures rooms == With(Without(old(rooms), current, u), target, u)
    {
      if current.Some? && current.value in rooms {
        rooms := rooms[current.value := rooms[current.value].(members := rooms[current.value].members - {u})];
      }
      if target.Some? && target.value in rooms {
        rooms := rooms[target.value := rooms[target.value].(members := rooms[target.value].members + {u})];
      }
    }

    method MoveUser(u: UserId, target: Option<RoomId>, tracks: Option<Tracks>)
      requires u in sessions
      modifies `rooms, `sessions
      ensures View() == Move(old(View()), u, target, tracks)
    {
      hide With, Without;
      SwapMembers(u, sessions[u].room, target);
      SetMembership(u, target, tracks);
    }

    /** The whole move, epochs, members, tracks and routes; or, refused, none of it, but for media
        ids that are used up. */
    method Place(u: UserId, target: Option<RoomId>, hasKey: bool, luck: Luck) returns (outcome: Outcome<HubModel.Placement>)
      requires Valid()
      modifies `rooms, `sessions, `table, `audiences, db
      ensures (View(), outcome) == HubModel.Place(old(View()), u, target, hasKey, luck)
      ensures Valid()
    {
      hide HubInv, Rebuild, PlacementOf, Move, Bump;
      PlaceKeeps(View(), u, target, hasKey, luck);
      if u !in sessions {
        return Refused;
      }
      var current := sessions[u].room;
      if current == target {
        var placement := Placement(u);
        return Done(placement);
      }
      if target.Some? {
        if target.value !in rooms || |rooms[target.value].members| >= MAX_ROOM_MEMBERS || !hasKey {
          return Refused;
        }
      }
      var tracks := None;
      ghost var before := View();
      if target.Some? {
        tracks := AllocateTracks(luck);
        if tracks.None? {
          return Refused;
        }
        ReserveKeeps(before, luck);
      }
      assert HubInv(View());
      outcome := PlaceNow(u, target, tracks, luck);
    }

    /** The part of a move that follows once its tracks are reserved. */
    method PlaceNow(u: UserId, target: Option<RoomId>, tracks: Option<Tracks>, luck: Luck) returns (outcome: Outcome<HubModel.Placement>)
      requires Valid() && u in sessions && sessions[u].room != target
      requires target.Some? ==> target.value in rooms && |rooms[target.value].members| < MAX_ROOM_MEMBERS
      requires tracks.Some? <==> target.Some?
      requires tracks.Some? ==> AreNew(sessions, tracks.value, db.nextMedia)
      modifies `rooms, `sessions, `table, `audiences, db`epochs
      ensures var changed := OneRoom(old(sessions[u].room)) + OneRoom(target);
        if CanBump(old(View()), changed, luck) then
          var (after, placement) := PlacementOf(Rebuild(Move(Bump(old(View()), changed), u, target, tracks)), u);
          View() == after && outcome == Done(placement)
        else View() == old(View()) && outcome == Refused
    {
      hide Sound, Fresh, AllKnow, Rebuild, PlacementOf, Move, Bump, Listed;
      var current := sessions[u].room;
      var changed := Listing(current) + Listing(target);
      ListingIs(current, target);
      ghost var before := View();
      SoundAndKnown(before);
      var ok := BumpEpochs(changed, luck);
      if !ok {
        return Refused;
      }
      BumpKeeps(before, Listed(changed), luck);
      BumpStands(before, Listed(changed));
      if target.Some? {
        BumpedRoom(before, Listed(changed), target.value);
      }
      MoveKeeps(View(), u, target, tracks);
      MoveUser(u, target, tracks);
      RebuildRoutes();
      var placement := Placement(u);
      outcome := Done(placement);
    }

    /** Afterwards the user is in no room, whatever the database did. */
    method LeaveRoom(u: UserId, luck: Luck)
      requires Valid()
      modifies `rooms, `sessions, `table, `audiences, db
      ensures View() == HubModel.LeaveRoom(old(View()), u, luck)
      ensures Valid()
    {
      hide HubInv, Rebuild, Move, HubModel.Place;
      LeaveKeeps(View(), u, luck);
      if u !in sessions {
        return;
      }
      PlacedOut(View(), u, luck);
      var outcome := Place(u, None, false, luck);
      if outcome.Refused? && sessions[u].room.Some? {
        KnownToAll(View(), u);
        MoveUser(u, None, None);
        RebuildRoutes();
      }
    }

    // ---- Connections -------------------------------------------------------------------

    method Evict(u: UserId, luck: Luck)
      requires Valid()
      modifies `rooms, `sessions, `table, `audiences, db
      ensures View() == HubModel.Evict(old(View()), u, luck)
      ensures Valid()
    {
      hide HubInv, HubModel.LeaveRoom;
      EvictKeeps(View(), u, luck);
      LeaveRoom(u, luck);
      sessions := sessions - {u};
    }

    /** Registers a connection, which replaces the user's last one. */
    method Connect(u: UserId, admin: bool, key: Option<EncryptionKey>, rejoin: Option<RoomId>, hasKey: bool,
                   evicting: Luck, rejoining: Luck) returns (outcome: Outcome<HubModel.Placement>)
      requires Valid()
      modifies `rooms, `sessions, `table, `audiences, `nextConn, db
      ensures (View(), outcome) == HubModel.Connect(old(View()), u, admin, key, rejoin, hasKey, evicting, rejoining)
      ensures Valid()
    {
      hide HubInv, HubModel.Evict, HubModel.Place;
      ConnectKeeps(View(), u, admin, key, rejoin, hasKey, evicting, rejoining);
      var full := |sessions| >= MAX_SIGNED_IN || (!admin && |sessions| >= MAX_ONLINE);
      if full && u !in sessions {
        return Refused;
      }
      SignInKeeps(View(), u, admin, key, evicting);
      SignIn(u, key, evicting);
      if rejoin.None? {
        return Done(Lobby);
      }
      outcome := Place(u, rejoin, hasKey, rejoining);
      if outcome.Refused? {
        outcome := Done(Lobby);
      }
    }

    method SignIn(u: UserId, key: Option<EncryptionKey>, luck: Luck)
      requires Valid()
      modifies `rooms, `sessions, `table, `audiences, `nextConn, db
      ensures View() == HubModel.SignIn(old(View()), u, key, luck)
    {
      hide HubInv, HubModel.Evict;
      Evict(u, luck);
      nextConn := nextConn + 1;
      EvictCounts(old(View()), u, luck);
      sessions := sessions[u := NewSession(nextConn, key)];
    }

    /** A stale connection changes nothing. The routes stay those of now without another
        rebuild. */
    method Disconnect(u: UserId, conn: ConnId, luck: Luck)
      requires Valid()
      modifies `rooms, `sessions, `table, `audiences, db
      ensures View() == HubModel.Disconnect(old(View()), u, conn, luck)
      ensures Valid()
    {
      hide HubInv, HubModel.Evict;
      if u in sessions && sessions[u].conn == conn {
        Evict(u, luck);
      }
    }

    // ---- Requests ----------------------------------------------------------------------

    method SetMedia(u: UserId, deafened: bool, share: Option<int>, allowed: bool) returns (outcome: Outcome<()>)
      requires Valid()
      modifies `sessions, `table, `audiences
      ensures (View(), outcome) == HubModel.SetMedia(old(View()), u, deafened, share, allowed)
      ensures Valid()
    {
      hide HubInv, Rebuild, RefusesShare;
      SetMediaKeeps(View(), u, deafened, share, allowed);
      if u !in sessions || sessions[u].room.None? {
        return Refused;
      }
      var stored := sessions[u];
      var refused := MustRefuseShare(u, share, allowed);
      var applied := stored.(deafened := deafened, share := if refused then stored.share else share);
      ghost var before := View();
      sessions := sessions[u := applied];
      if applied.deafened != stored.deafened || applied.share.Some? != stored.share.Some? {
        SharesStayFew(before, View(), u, share, allowed);
        SettingsKeep(before, View(), u);
        RebuildRoutes();
      }
      outcome := if refused then Refused else Done(());
    }

    method MustRefuseShare(u: UserId, share: Option<int>, allowed: bool) returns (refused: bool)
      requires u in sessions && sessions[u].room.Some?
      ensures refused == RefusesShare(View(), u, share, allowed)
    {
      var stored := sessions[u].share;
      var starting := share.Some? && stored.None?;
      var running := |Sharing(sessions, MembersOf(rooms, sessions[u].room.value))|;
      var full := starting && running >= MAX_ROOM_SHARES;
      var limited := share.Some? && share != stored && !full && !allowed;
      refused := full || limited;
    }

    /** Whose share track `id` is. */
    method ShareTrack(id: MediaId) returns (owner: Option<UserId>)
      requires IdsApart(sessions, db.nextMedia)
      ensures Sharers(View(), id) == if owner.Some? then {owner.value} else {}
      ensures owner.Some? ==> owner.value in sessions
    {
      var owners := set u | u in sessions && sessions[u].tracks.Some?
        && (id == sessions[u].tracks.value.video || id == sessions[u].tracks.value.audio);
      SameSet(owners, Sharers(View(), id));
      if owners == {} {
        return None;
      }
      owner := Some(Min(owners));
      forall u ensures u in owners <==> u in {owner.value} {
      }
      SameSet(owners, {owner.value});
    }

    method SetWatched(u: UserId, ids: seq<MediaId>) returns (outcome: Outcome<()>)
      requires Valid()
      modifies `sessions, `table, `audiences
      ensures (View(), outcome) == HubModel.SetWatched(old(View()), u, ids)
      ensures Valid()
    {
      hide HubInv, Rebuild, Sharers;
      SetWatchedKeeps(View(), u, ids);
      if |ids| > MAX_WATCHED || u !in sessions || sessions[u].room.None? {
        return Refused;
      }
      var room := sessions[u].room.value;
      ghost var before := View();
      KnownApart(before);
      var k := 0;
      while k < |ids|
        invariant 0 <= k <= |ids| && View() == before
        invariant forall i :: 0 <= i < k ==> MayWatch(View(), u, room, ids[i])
      {
        var owner := ShareTrack(ids[k]);
        if owner.None? || owner.value == u || sessions[owner.value].room != Some(room) {
          assert !MayWatch(View(), u, room, ids[k]);
          return Refused;
        }
        k := k + 1;
      }
      sessions := sessions[u := sessions[u].(watching := ids)];
      SharesStayFew(before, View(), u, before.sessions[u].share, true);
      SettingsKeep(before, View(), u);
      RebuildRoutes();
      outcome := Done(());
    }

    /** The epoch of a member's room moves just if the key itself differs from the one stored. */
    method SetEncryptionKey(u: UserId, key: EncryptionKey, allowed: bool, luck: Luck) returns (outcome: Outcome<()>)
      requires Valid()
      modifies `sessions, `rooms, db`epochs
      ensures (View(), outcome) == HubModel.SetEncryptionKey(old(View()), u, key, allowed, luck)
      ensures Valid()
    {
      hide HubInv, Bump;
      SetKeyKeeps(View(), u, key, allowed, luck);
      if u !in sessions {
        return Refused;
      }
      var stored := sessions[u].encryptionKey;
      if stored == Some(key) {
        return Done(());
      }
      if !allowed {
        return Refused;
      }
      EpochsAreStored(View());
      sessions := sessions[u := sessions[u].(encryptionKey := Some(key))];
      outcome := Done(());
      if sessions[u].room.Some? && !(stored.Some? && stored.value.key == key.key) {
        ListedOne(sessions[u].room.value);
        var ok := BumpEpochs([sessions[u].room.value], luck);
        if !ok {
          return Refused;
        }
      }
    }

    method KickFromRoom(target: UserId, room: RoomId, allowed: bool, luck: Luck) returns (outcome: Outcome<()>)
      requires Valid()
      modifies `rooms, `sessions, `table, `audiences, db
      ensures (View(), outcome) == HubModel.KickFromRoom(old(View()), target, room, allowed, luck)
      ensures Valid()
    {
      hide HubInv, HubModel.LeaveRoom;
      if target !in sessions || sessions[target].room != Some(room) || !allowed {
        return Refused;
      }
      LeaveRoom(target, luck);
      outcome := Done(());
    }

    /** Deletes a room, once every member has been moved out of it. */
    method DeleteRoom(room: RoomId, allowed: bool, lucks: UserId -> Luck, deletes: bool) returns (outcome: Outcome<()>)
      requires Valid()
      modifies `rooms, `sessions, `table, `audiences, db
      ensures (View(), outcome) == HubModel.DeleteRoom(old(View()), room, allowed, lucks, deletes)
      ensures Valid()
    {
      hide HubInv, HubModel.Place, PlaceOut;
      DeleteKeeps(View(), room, allowed, lucks, deletes);
      if room !in rooms || !allowed {
        return Refused;
      }
      outcome := PlaceAllOut(Ordered(rooms[room].members), lucks);
      if outcome.Refused? || !deletes {
        return Refused;
      }
      ghost var after := View();
      rooms := rooms - {room};
      db.epochs := db.epochs - {room};
      assert View() == after.(rooms := after.rooms - {room}, storedEpochs := after.storedEpochs - {room});
      outcome := Done(());
    }

    method PlaceAllOut(users: seq<UserId>, lucks: UserId -> Luck) returns (outcome: Outcome<()>)
      requires Valid()
      modifies `rooms, `sessions, `table, `audiences, db
      ensures (View(), outcome) == PlaceOut(old(View()), users, lucks)
      ensures Valid()
    {
      hide HubInv, HubModel.Place;
      var k := 0;
      while k < |users|
        invariant 0 <= k <= |users| && Valid()
        invariant PlaceOut(old(View()), users, lucks) == PlaceOut(View(), users[k..], lucks)
      {
        var placed := Place(users[k], None, false, lucks(users[k]));
        assert users[k..][1..] == users[k + 1..];
        if placed.Refused? {
          return Refused;
        }
        k := k + 1;
      }
      outcome := Done(());
    }

    method AddRoom(creates: bool) returns (outcome: Outcome<()>)
      requires Valid()
      modifies `rooms, `nextRoom, db`epochs
      ensures (View(), outcome) == HubModel.AddRoom(old(View()), creates)
      ensures Valid()
    {
      hide HubInv;
      AddKeeps(View(), creates);
      if !creates {
        return Refused;
      }
      rooms := rooms[nextRoom := Entry(0, {})];
      db.epochs := db.epochs[nextRoom := 0];
      nextRoom := nextRoom + 1;
      outcome := Done(());
    }

    /** Hands a member's wrapped secrets to the connections of their recipients, in order; or to
        nobody, unless each may be published. Each is given by its recipient and length. */
    method PublishKey(u: UserId, epoch: Epoch, wrapped: seq<(UserId, nat)>) returns (outcome: Outcome<seq<KeyEvent>>)
      requires Valid()
      ensures outcome.Done? <==> MayPublish(View(), u, epoch, wrapped)
      ensures outcome.Done? ==>
        && |outcome.value| == |wrapped|
        && forall i :: 0 <= i < |wrapped| ==>
             && wrapped[i].0 in sessions && sessions[wrapped[i].0].room == sessions[u].room
             && outcome.value[i] == KeyEvent(sessions[wrapped[i].0].conn, u, epoch, wrapped[i].1)
    {
      hide Fresh, AllKnow, IdsApart, ConnsDiffer, IsStored, WithinCaps;
      if u !in sessions || sessions[u].room.None? || sessions[u].room.value !in rooms {
        return Refused;
      }
      var room := sessions[u].room.value;
      var entry := rooms[room];
      if epoch != entry.epoch {
        return Refused;
      }
      var recipients: set<UserId> := {};
      var k := 0;
      while k < |wrapped|
        invariant 0 <= k <= |wrapped|
        invariant forall i :: 0 <= i < k ==> wrapped[i].0 != u && wrapped[i].0 in entry.members && wrapped[i].1 <= MAX_WRAPPED_BYTES
        invariant forall i, j :: 0 <= i < j < k ==> wrapped[i].0 != wrapped[j].0
        invariant forall i :: 0 <= i < k ==> wrapped[i].0 in recipients
        invariant forall to :: to in recipients ==> exists i :: 0 <= i < k && wrapped[i].0 == to
      {
        var to := wrapped[k].0;
        if to == u || to !in entry.members || to in recipients || wrapped[k].1 > MAX_WRAPPED_BYTES {
          return Refused;
        }
        recipients := recipients + {to};
        k := k + 1;
      }
      var handed: seq<KeyEvent> := [];
      k := 0;
      while k < |wrapped|
        invariant 0 <= k == |handed| <= |wrapped|
        invariant forall i :: 0 <= i < k ==>
          && wrapped[i].0 in sessions && sessions[wrapped[i].0].room == Some(room)
          && handed[i] == KeyEvent(sessions[wrapped[i].0].conn, u, epoch, wrapped[i].1)
      {
        var to := wrapped[k].0;
        assert RoomOf(sessions, to) == Some(room);
        handed := handed + [KeyEvent(sessions[to].conn, u, epoch, wrapped[k].1)];
        k := k + 1;
      }
      outcome := Done(handed);
    }
  }

  // ---- Facts the methods rely on -------------------------------------------------------

  function Listed(which: seq<RoomId>): set<RoomId> {
    set i | 0 <= i < |which| :: which[i]
  }

  function Listing(room: Option<RoomId>): seq<RoomId> {
    if room.Some? then [room.value] else []
  }

  lemma ListingIs(current: Option<RoomId>, target: Option<RoomId>)
    ensures Listed(Listing(current) + Listing(target)) == OneRoom(current) + OneRoom(target)
    ensures current != target ==> var which := Listing(current) + Listing(target);
      forall i, j :: 0 <= i < j < |which| ==> which[i] != which[j]
  {
    var which := Listing(current) + Listing(target);
    forall r ensures r in Listed(which) <==> r in OneRoom(current) + OneRoom(target) {
      if r in OneRoom(current) {
        assert which[0] == r;
      }
      if r in OneRoom(target) {
        assert which[|which| - 1] == r;
      }
    }
    SameSet(Listed(which), OneRoom(current) + OneRoom(target));
  }

  lemma ListedOne(r: RoomId)
    ensures Listed([r]) == {r}
  {
    forall q ensures q in Listed([r]) <==> q in {r} {
      assert [r][0] == r;
    }
    SameSet(Listed([r]), {r});
  }

  lemma ListedNone(which: seq<RoomId>)
    ensures Listed(which[..0]) == {}
  {
    forall r ensures r !in Listed(which[..0]) {
    }
    SameSet(Listed(which[..0]), {});
  }

  lemma ListedMore(which: seq<RoomId>, k: nat)
    requires k < |which| && forall i, j :: 0 <= i < j < |which| ==> which[i] != which[j]
    ensures Listed(which[..k + 1]) == Listed(which[..k]) + {which[k]} && which[k] !in Listed(which[..k])
  {
    var less, more := which[..k], which[..k + 1];
    forall r ensures r in Listed(more) <==> r in Listed(less) + {which[k]} {
      if r in Listed(less) {
        var i :| 0 <= i < k && less[i] == r;
        assert more[i] == r;
      }
      assert more[k] == which[k];
      if r in Listed(more) {
        var i :| 0 <= i < k + 1 && more[i] == r;
        assert i < k ==> less[i] == r;
      }
    }
    SameSet(Listed(more), Listed(less) + {which[k]});
  }

  function RoomsBumped(rooms: Rooms, some: set<RoomId>): Rooms {
    map r | r in rooms :: if r in some then rooms[r].(epoch := rooms[r].epoch + 1) else rooms[r]
  }

  function EpochsBumped(epochs: map<RoomId, Epoch>, rooms: Rooms, some: set<RoomId>): map<RoomId, Epoch> {
    map r | r in epochs :: if r in some && r in rooms then rooms[r].epoch + 1 else epochs[r]
  }

  lemma BumpIs(h: HubModel.Hub, some: set<RoomId>)
    ensures Bump(h, some) == h.(rooms := RoomsBumped(h.rooms, some), storedEpochs := EpochsBumped(h.storedEpochs, h.rooms, some))
  {
    SameMap(Bump(h, some).rooms, RoomsBumped(h.rooms, some));
    SameMap(Bump(h, some).storedEpochs, EpochsBumped(h.storedEpochs, h.rooms, some));
  }

  lemma BumpedRoom(h: HubModel.Hub, some: set<RoomId>, r: RoomId)
    ensures r in Bump(h, some).rooms <==> r in h.rooms
    ensures r in h.rooms ==> Bump(h, some).rooms[r].members == h.rooms[r].members
  {
  }

  lemma BumpedNone(rooms: Rooms)
    ensures RoomsBumped(rooms, {}) == rooms
  {
    SameMap(RoomsBumped(rooms, {}), rooms);
  }

  lemma BumpedMore(rooms: Rooms, some: set<RoomId>, r: RoomId)
    requires r in rooms && r !in some
    ensures r in RoomsBumped(rooms, some) && RoomsBumped(rooms, some)[r] == rooms[r]
    ensures RoomsBumped(rooms, some + {r}) == RoomsBumped(rooms, some)[r := rooms[r].(epoch := rooms[r].epoch + 1)]
  {
    SameMap(RoomsBumped(rooms, some + {r}), RoomsBumped(rooms, some)[r := rooms[r].(epoch := rooms[r].epoch + 1)]);
  }

  lemma CannotBump(h: HubModel.Hub, which: seq<RoomId>, k: nat, luck: Luck)
    requires k < |which| && (which[k] !in h.rooms || h.rooms[which[k]].epoch + 1 > U32_MAX)
    ensures !CanBump(h, Listed(which), luck)
  {
    var room: int := which[k];
    assert room in Listed(which);
    assert room in h.rooms ==> h.rooms[room].epoch + 1 > U32_MAX;
  }

  lemma StoredAre(after: map<RoomId, Epoch>, before: map<RoomId, Epoch>, rooms: Rooms, which: seq<RoomId>, changes: seq<(RoomId, Epoch)>)
    requires after == Stored(before, changes) && |changes| == |which| && before.Keys == rooms.Keys
    requires forall i, j :: 0 <= i < j < |which| ==> which[i] != which[j]
    requires forall i :: 0 <= i < |which| ==> which[i] in rooms && changes[i] == (which[i], rooms[which[i]].epoch + 1)
    ensures after == EpochsBumped(before, rooms, Listed(which))
  {
    StoredUpTo(before, rooms, which, changes, |which|);
    assert which[..|which|] == which && changes[..|changes|] == changes;
  }

  lemma {:induction false} StoredUpTo(before: map<RoomId, Epoch>, rooms: Rooms, which: seq<RoomId>, changes: seq<(RoomId, Epoch)>, k: nat)
    requires k <= |which| == |changes| && before.Keys == rooms.Keys
    requires forall i, j :: 0 <= i < j < |which| ==> which[i] != which[j]
    requires forall i :: 0 <= i < |which| ==> which[i] in rooms && changes[i] == (which[i], rooms[which[i]].epoch + 1)
    ensures Stored(before, changes[..k]) == EpochsBumped(before, rooms, Listed(which[..k]))
    decreases k
  {
    hide Listed;
    if k == 0 {
      ListedNone(which);
      SameMap(EpochsBumped(before, rooms, {}), before);
    } else {
      StoredUpTo(before, rooms, which, changes, k - 1);
      ListedMore(which, k - 1);
      assert changes[..k][..k - 1] == changes[..k - 1];
      var less := EpochsBumped(before, rooms, Listed(which[..k - 1]));
      SameMap(EpochsBumped(before, rooms, Listed(which[..k])), less[which[k - 1] := changes[k - 1].1]);
    }
  }

  lemma SoundAndKnown(h: HubModel.Hub)
    requires HubInv(h)
    ensures IsStored(h) && Sound(h)
    ensures forall audiences :: audiences == h.audiences ==> KnowBut(h.sessions, audiences, None)
  {
    KnowsAll(h);
  }

  lemma EpochsAreStored(h: HubModel.Hub)
    requires HubInv(h)
    ensures IsStored(h)
  {
  }

  lemma KnownApart(h: HubModel.Hub)
    requires HubInv(h)
    ensures IdsApart(h.sessions, h.nextMedia)
  {
  }

  /** Whoever leaves by force leaves a sound hub behind. */
  lemma KnownToAll(h: HubModel.Hub, u: UserId)
    requires HubInv(h) && u in h.sessions && h.sessions[u].room.Some?
    ensures Sound(Move(h, u, None, None))
  {
    hide Fresh, AllKnow, Move;
    MoveKeeps(h, u, None, None);
  }

  // ---- Prefixes of ordered members -----------------------------------------------------

  ghost function FirstOf(members: seq<UserId>, k: nat): set<UserId>
    requires k <= |members|
  {
    set i | 0 <= i < k :: members[i]
  }

  lemma FirstNone(members: seq<UserId>)
    ensures FirstOf(members, 0) == {} && forall users: set<UserId> :: users + FirstOf(members, 0) == users
  {
    forall u ensures u !in FirstOf(members, 0) {
    }
    SameSet(FirstOf(members, 0), {});
  }

  lemma FirstMore(members: seq<UserId>, k: nat)
    requires k < |members| && forall i, j :: 0 <= i < j < |members| ==> members[i] < members[j]
    ensures FirstOf(members, k + 1) == FirstOf(members, k) + {members[k]} && members[k] !in FirstOf(members, k)
  {
    forall u ensures u in FirstOf(members, k + 1) <==> u in FirstOf(members, k) + {members[k]} {
      if u in FirstOf(members, k + 1) {
        var i :| 0 <= i < k + 1 && members[i] == u;
        assert i < k ==> members[i] in FirstOf(members, k);
      }
      assert members[k] in FirstOf(members, k + 1);
    }
    SameSet(FirstOf(members, k + 1), FirstOf(members, k) + {members[k]});
  }

  lemma FirstAll(members: seq<UserId>, all: set<UserId>)
    requires forall u :: u in members <==> u in all
    ensures FirstOf(members, |members|) == all
  {
    forall u ensures u in FirstOf(members, |members|) <==> u in all {
      if u in all {
        assert u in members;
        var i :| 0 <= i < |members| && members[i] == u;
        assert members[i] in FirstOf(members, |members|);
      }
      if u in FirstOf(members, |members|) {
        var i :| 0 <= i < |members| && members[i] == u;
        assert members[i] in members;
      }
    }
    SameSet(FirstOf(members, |members|), all);
  }
}
