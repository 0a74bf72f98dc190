/** What every operation of the hub keeps: membership, caps, media ids, and fresh routes. */
module HubInvariants {
  import opened Collections
  import opened HubModel

  // ---- What is kept --------------------------------------------------------------------

  /** A session names a room exactly when the room's members contain the user, and has tracks
      exactly while in one. */
  ghost predicate InStep(sessions: Sessions, rooms: Rooms) {
    && (forall u :: u in sessions ==> SessionFits(sessions, rooms, u))
    && (forall r, u :: r in rooms && u in rooms[r].members ==> RoomOf(sessions, u) == Some(r))
  }

  ghost predicate SessionFits(sessions: Sessions, rooms: Rooms, u: UserId)
    requires u in sessions
  {
    var s := sessions[u];
    && (s.tracks.Some? <==> s.room.Some?)
    && (s.room.Some? ==> u in MembersOf(rooms, s.room.value))
    && (s.room.None? ==> s.share.None? && s.watching == [])
  }

  ghost predicate FromOne(t: Tracks) {
    t == Tracks(t.mic, t.mic + 1, t.mic + 2)
  }

  ghost predicate Apart(a: Tracks, b: Tracks) {
    a.mic + 3 <= b.mic || b.mic + 3 <= a.mic
  }

  /** Nobody's tracks share a media id, and no id to come is in use. */
  ghost predicate IdsApart(sessions: Sessions, nextMedia: nat) {
    && (forall u :: u in sessions && sessions[u].tracks.Some? ==>
          FromOne(sessions[u].tracks.value) && sessions[u].tracks.value.mic + 3 <= nextMedia)
    && (forall u, v :: u in sessions && v in sessions && u != v && sessions[u].tracks.Some? && sessions[v].tracks.Some? ==>
          Apart(sessions[u].tracks.value, sessions[v].tracks.value))
  }

  ghost predicate WithinCaps(h: Hub) {
    && |h.sessions| <= MAX_SIGNED_IN
    && h.nextMedia <= U32_MAX + 1
    && (forall r :: r in h.rooms ==> |h.rooms[r].members| <= MAX_ROOM_MEMBERS && h.rooms[r].epoch <= U32_MAX && r < h.nextRoom)
    && (forall r :: r in h.rooms ==> SharesIn(h, r) <= MAX_ROOM_SHARES)
  }

  ghost predicate ConnsDiffer(h: Hub) {
    && (forall u :: u in h.sessions ==> h.sessions[u].conn <= h.nextConn)
    && (forall u, v :: u in h.sessions && v in h.sessions && u != v ==> h.sessions[u].conn != h.sessions[v].conn)
  }

  ghost predicate IsStored(h: Hub) {
    h.storedEpochs.Keys == h.rooms.Keys && forall r :: r in h.rooms ==> h.storedEpochs[r] == h.rooms[r].epoch
  }

  /** What a connection was told is numbered from 1, with no gap. */
  ghost predicate Numbered(s: Session) {
    |s.told| == s.audienceSeq && forall i :: 0 <= i < |s.told| ==> s.told[i].seqNo == i + 1
  }

  /** The last a connection was told is what its room was last announced. */
  ghost predicate KnowsLast(s: Session, audiences: map<RoomId, seq<Audience>>) {
    s.room.Some? ==> s.told != [] && s.told[|s.told| - 1].shares == ListOf(audiences, s.room.value)
  }

  ghost predicate AllNumbered(sessions: Sessions) {
    forall u :: u in sessions ==> Numbered(sessions[u])
  }

  ghost predicate AllKnow(h: Hub) {
    forall u :: u in h.sessions ==> KnowsLast(h.sessions[u], h.audiences)
  }

  /** The table and the audiences are what a recomputation would make them. */
  ghost predicate Fresh(h: Hub) {
    h.table == TableOf(h.sessions, h.rooms) && h.audiences == AllAudiences(h.sessions, h.rooms)
  }

  ghost predicate Sound(h: Hub) {
    InStep(h.sessions, h.rooms) && IdsApart(h.sessions, h.nextMedia) && WithinCaps(h) && ConnsDiffer(h) && IsStored(h)
    && AllNumbered(h.sessions)
  }

  ghost predicate HubInv(h: Hub) {
    Sound(h) && Fresh(h) && AllKnow(h)
  }

  // ---- What routes depend on -----------------------------------------------------------

  /** Two sessions that routes and audiences can't tell apart. */
  ghost predicate Alike(a: Sessions, b: Sessions, u: UserId) {
    && (u in a <==> u in b)
    && (u in a ==>
          && a[u].conn == b[u].conn && a[u].room == b[u].room && a[u].tracks == b[u].tracks && a[u].deafened == b[u].deafened
          && a[u].share.Some? == b[u].share.Some? && a[u].watching == b[u].watching)
  }

  ghost predicate AllAlike(a: Sessions, b: Sessions, users: set<UserId>) {
    forall u :: u in users ==> Alike(a, b, u)
  }

  lemma {:induction false} ConnsAgree(a: Sessions, b: Sessions, users: seq<UserId>)
    requires forall u :: u in users ==> Alike(a, b, u)
    ensures ConnsOf(a, users) == ConnsOf(b, users)
  {
    if users != [] {
      assert users[0] in users && forall u :: u in users[1..] ==> u in users;
      ConnsAgree(a, b, users[1..]);
      assert Alike(a, b, users[0]);
    }
  }

  lemma {:induction false} OrderedHas(s: set<int>)
    ensures forall x :: x in Ordered(s) <==> x in s
    ensures |Ordered(s)| == |s|
    decreases |s|
  {
    if s != {} {
      OrderedHas(s - {Min(s)});
    }
  }

  lemma SetsAgree(a: Sessions, b: Sessions, members: set<UserId>, u: UserId, t: Tracks)
    requires AllAlike(a, b, members)
    ensures Hearing(a, members, u) == Hearing(b, members, u)
    ensures Seeing(a, members, u, t) == Seeing(b, members, u, t)
    ensures HearingShare(a, members, u, t) == HearingShare(b, members, u, t)
    ensures Receivers(a, members, u, t) == Receivers(b, members, u, t)
  {
    forall m ensures m in OthersIn(a, members, u) <==> m in OthersIn(b, members, u) {
      assert m in members ==> Alike(a, b, m);
    }
    SameSet(Hearing(a, members, u), Hearing(b, members, u));
    SameSet(Seeing(a, members, u, t), Seeing(b, members, u, t));
    SameSet(HearingShare(a, members, u, t), HearingShare(b, members, u, t));
    SameSet(Receivers(a, members, u, t), Receivers(b, members, u, t));
  }

  lemma RouteAgrees(a: Sessions, b: Sessions, members: set<UserId>, owner: ConnId, kind: Kind, users: set<UserId>)
    requires AllAlike(a, b, members) && users <= members
    ensures RouteTo(a, owner, kind, users) == RouteTo(b, owner, kind, users)
  {
    OrderedHas(users);
    ConnsAgree(a, b, Ordered(users));
  }

  lemma RoutesAgree(a: Sessions, b: Sessions, members: set<UserId>, u: UserId)
    requires AllAlike(a, b, members) && Alike(a, b, u)
    ensures RoutesOf(a, members, u) == RoutesOf(b, members, u)
  {
    hide Alike, RouteTo, Hearing, Seeing, HearingShare;
    assert Alike(a, b, u);
    SameSession(a, b, u);
    if u in a && a[u].tracks.Some? {
      var t := a[u].tracks.value;
      SetsAgree(a, b, members, u, t);
      Subsets(a, members, u, t);
      RouteAgrees(a, b, members, a[u].conn, AudioKind, Hearing(a, members, u));
      RouteAgrees(a, b, members, a[u].conn, VideoKind, Seeing(a, members, u, t));
      RouteAgrees(a, b, members, a[u].conn, AudioKind, HearingShare(a, members, u, t));
    }
  }

  lemma SameSession(a: Sessions, b: Sessions, u: UserId)
    requires Alike(a, b, u)
    ensures u in a <==> u in b
    ensures u in a ==> a[u].tracks == b[u].tracks && a[u].conn == b[u].conn && a[u].room == b[u].room
  {
  }

  lemma Subsets(sessions: Sessions, members: set<UserId>, u: UserId, t: Tracks)
    ensures Hearing(sessions, members, u) <= members && Seeing(sessions, members, u, t) <= members
    ensures HearingShare(sessions, members, u, t) <= members && Receivers(sessions, members, u, t) <= members
  {
    forall m ensures m in OthersIn(sessions, members, u) ==> m in members {
    }
    Within(Hearing(sessions, members, u), members);
    Within(Seeing(sessions, members, u, t), members);
    Within(HearingShare(sessions, members, u, t), members);
    Within(Receivers(sessions, members, u, t), members);
  }

  lemma AudienceAgrees(a: Sessions, b: Sessions, members: set<UserId>, u: UserId)
    requires AllAlike(a, b, members) && Alike(a, b, u)
    ensures AudienceOf(a, members, u) == AudienceOf(b, members, u)
  {
    if u in a && a[u].tracks.Some? {
      SetsAgree(a, b, members, u, a[u].tracks.value);
    }
  }

  lemma {:induction false} AudienceListAgrees(a: Sessions, b: Sessions, members: set<UserId>, users: seq<UserId>)
    requires AllAlike(a, b, members) && forall u :: u in users ==> u in members
    ensures AudienceList(a, members, users) == AudienceList(b, members, users)
  {
    hide AudienceOf;
    if users != [] {
      AudienceListAgrees(a, b, members, users[..|users| - 1]);
      AudienceAgrees(a, b, members, users[|users| - 1]);
    }
  }

  lemma AudiencesAgree(a: Sessions, b: Sessions, before: Rooms, after: Rooms, r: RoomId)
    requires MembersOf(before, r) == MembersOf(after, r) && AllAlike(a, b, MembersOf(before, r))
    ensures AudiencesIn(a, before, r) == AudiencesIn(b, after, r)
  {
    OrderedHas(MembersOf(before, r));
    AudienceListAgrees(a, b, MembersOf(before, r), Ordered(MembersOf(before, r)));
  }

  /** Routes and audiences are the same where the members of every room are. */
  ghost predicate SameRouting(a: Sessions, before: Rooms, b: Sessions, after: Rooms) {
    && Placed(a) == Placed(b)
    && (forall r :: MembersOf(before, r) == MembersOf(after, r))
    && (forall r :: AllAlike(a, b, MembersOf(before, r)))
    && AllAlike(a, b, Placed(a))
  }

  lemma AllAudiencesAgree(a: Sessions, before: Rooms, b: Sessions, after: Rooms)
    requires SameRouting(a, before, b, after)
    ensures AllAudiences(a, before) == AllAudiences(b, after)
  {
    hide AudiencesIn;
    forall r ensures AudiencesIn(a, before, r) == AudiencesIn(b, after, r) {
      AudiencesAgree(a, b, before, after, r);
    }
    forall r | r !in before || r !in after ensures MembersOf(before, r) == {} {
      assert MembersOf(before, r) == MembersOf(after, r);
    }
    forall r ensures r in AllAudiences(a, before) <==> r in AllAudiences(b, after) {
      NobodyListens(a, before, r);
      NobodyListens(b, after, r);
    }
    SameMap(AllAudiences(a, before), AllAudiences(b, after));
  }

  lemma NobodyListens(sessions: Sessions, rooms: Rooms, r: RoomId)
    ensures MembersOf(rooms, r) == {} ==> AudiencesIn(sessions, rooms, r) == []
  {
  }

  lemma RouteForAgrees(a: Sessions, before: Rooms, b: Sessions, after: Rooms, u: UserId, id: MediaId)
    requires SameRouting(a, before, b, after) && u in Placed(a)
    ensures RouteFor(a, before, u, id) == RouteFor(b, after, u, id)
  {
    hide RoutesOf;
    assert Alike(a, b, u);
    var r := a[u].room.value;
    assert AllAlike(a, b, MembersOf(before, r));
    RoutesAgree(a, b, MembersOf(before, r), u);
  }

  lemma TablesAgree(a: Sessions, before: Rooms, b: Sessions, after: Rooms)
    requires SameRouting(a, before, b, after)
    ensures TableOf(a, before) == TableOf(b, after)
  {
    hide RouteFor, Placed;
    var users := Placed(a);
    forall u, id ensures u in users ==> (SendsOn(a, u, id) <==> SendsOn(b, u, id)) {
      assert u in users ==> Alike(a, b, u);
    }
    forall id ensures SendersAmong(a, users, id) == SendersAmong(b, users, id) {
      SameSet(SendersAmong(a, users, id), SendersAmong(b, users, id));
    }
    forall id ensures id in TableAmong(a, before, users) <==> SendersAmong(a, users, id) != {} {
      TableHas(a, before, users, id);
    }
    forall id ensures id in TableAmong(b, after, users) <==> SendersAmong(b, users, id) != {} {
      TableHas(b, after, users, id);
    }
    forall id | id in TableAmong(a, before, users) ensures TableAmong(a, before, users)[id] == TableAmong(b, after, users)[id] {
      var u := Max(SendersAmong(a, users, id));
      RouteForAgrees(a, before, b, after, u, id);
    }
    SameMap(TableAmong(a, before, users), TableAmong(b, after, users));
  }

  lemma TableHas(sessions: Sessions, rooms: Rooms, users: set<UserId>, id: MediaId)
    ensures id in TableAmong(sessions, rooms, users) <==> SendersAmong(sessions, users, id) != {}
    ensures id in TableAmong(sessions, rooms, users) ==>
      TableAmong(sessions, rooms, users)[id] == RouteFor(sessions, rooms, Max(SendersAmong(sessions, users, id)), id)
  {
    hide RouteFor;
    if SendersAmong(sessions, users, id) != {} {
      var u: int := Pick(SendersAmong(sessions, users, id));
      assert u in SendersAmong(sessions, users, id);
      assert id in SentIds(sessions, users);
    }
  }

  // ---- Rebuilding ----------------------------------------------------------------------

  ghost predicate KnowBut(sessions: Sessions, audiences: map<RoomId, seq<Audience>>, but: Option<UserId>) {
    forall u :: u in sessions && but != Some(u) ==> KnowsLast(sessions[u], audiences)
  }

  lemma ToldRoutesAlike(h: Hub)
    ensures SameRouting(h.sessions, h.rooms, AllTold(h), h.rooms)
  {
    hide ChangedRooms, AudiencesIn, MembersOf;
    forall u ensures u in Placed(h.sessions) <==> u in Placed(AllTold(h)) {
    }
    SameSet(Placed(h.sessions), Placed(AllTold(h)));
  }

  lemma ListsAre(sessions: Sessions, rooms: Rooms, r: RoomId)
    requires r in rooms
    ensures ListOf(AllAudiences(sessions, rooms), r) == AudiencesIn(sessions, rooms, r)
  {
  }

  /** However stale the routes were, rebuilding makes them what they should be; and whoever knew
      what was last announced knows what is announced now. */
  lemma RebuildIsFresh(h: Hub, but: Option<UserId>)
    requires InStep(h.sessions, h.rooms) && KnowBut(h.sessions, h.audiences, but)
    ensures Fresh(Rebuild(h))
    ensures KnowBut(Rebuild(h).sessions, Rebuild(h).audiences, but)
  {
    hide AudiencesIn, TableOf, AllAudiences;
    ToldRoutesAlike(h);
    TablesAgree(h.sessions, h.rooms, AllTold(h), h.rooms);
    AllAudiencesAgree(h.sessions, h.rooms, AllTold(h), h.rooms);
    var sessions, audiences := Rebuild(h).sessions, Rebuild(h).audiences;
    forall u | u in sessions && but != Some(u) ensures KnowsLast(sessions[u], audiences) {
      assert SessionFits(h.sessions, h.rooms, u) && KnowsLast(h.sessions[u], h.audiences);
      if h.sessions[u].room.Some? {
        ListsAre(h.sessions, h.rooms, h.sessions[u].room.value);
      }
    }
  }

  /** Sessions that differ in nothing but what they were told, and that in order. */
  ghost predicate OnlyTold(a: Sessions, b: Sessions) {
    && a.Keys == b.Keys
    && forall u :: u in a ==> b[u] == a[u].(audienceSeq := b[u].audienceSeq, told := b[u].told) && (Numbered(a[u]) ==> Numbered(b[u]))
  }

  lemma ToldIsNumbered(s: Session, shares: seq<Audience>)
    requires Numbered(s)
    ensures Numbered(Told(s, shares))
  {
  }

  lemma AllToldIsOnlyTold(h: Hub)
    ensures OnlyTold(h.sessions, AllTold(h))
  {
    hide ChangedRooms, AudiencesIn, MembersOf;
    SameSet(h.sessions.Keys, AllTold(h).Keys);
    forall u | u in h.sessions && Numbered(h.sessions[u]) ensures Numbered(AllTold(h)[u]) {
      if h.sessions[u].room.Some? {
        ToldIsNumbered(h.sessions[u], AudiencesIn(h.sessions, h.rooms, h.sessions[u].room.value));
      }
    }
  }

  /** Telling changes nothing else that is kept. */
  lemma TellingIsSound(h: Hub, t: Hub)
    requires Sound(h) && OnlyTold(h.sessions, t.sessions)
    requires t == h.(sessions := t.sessions, table := t.table, audiences := t.audiences)
    ensures Sound(t)
  {
    hide Numbered;
    forall u | u in t.sessions ensures SessionFits(t.sessions, t.rooms, u) && Numbered(t.sessions[u]) {
      assert SessionFits(h.sessions, h.rooms, u);
    }
    forall r, u | r in t.rooms && u in t.rooms[r].members ensures RoomOf(t.sessions, u) == Some(r) {
      assert RoomOf(h.sessions, u) == Some(r);
    }
    forall r | r in t.rooms ensures SharesIn(t, r) <= MAX_ROOM_SHARES {
      forall m ensures m in Sharing(t.sessions, MembersOf(t.rooms, r)) <==> m in Sharing(h.sessions, MembersOf(h.rooms, r)) {
      }
      SameSet(Sharing(t.sessions, MembersOf(t.rooms, r)), Sharing(h.sessions, MembersOf(h.rooms, r)));
      assert SharesIn(h, r) <= MAX_ROOM_SHARES;
    }
    assert |t.sessions| == |t.sessions.Keys| && |h.sessions| == |h.sessions.Keys|;
  }

  lemma RebuildKeeps(h: Hub, but: Option<UserId>)
    requires Sound(h) && KnowBut(h.sessions, h.audiences, but)
    ensures Sound(Rebuild(h)) && Fresh(Rebuild(h)) && KnowBut(Rebuild(h).sessions, Rebuild(h).audiences, but)
  {
    hide TableOf, AllAudiences, AllTold;
    RebuildIsFresh(h, but);
    AllToldIsOnlyTold(h);
    TellingIsSound(h, Rebuild(h));
  }

  // ---- Placements ----------------------------------------------------------------------

  /** A placement tells its connection what its room was last announced. */
  lemma PlacementKeeps(h: Hub, u: UserId)
    requires Sound(h) && Fresh(h) && KnowBut(h.sessions, h.audiences, Some(u))
    ensures HubInv(PlacementOf(h, u).0)
  {
    hide TableOf, AllAudiences, Sound;
    var t := PlacementOf(h, u).0;
    if u in h.sessions && h.sessions[u].room.Some? {
      var shares := ListOf(h.audiences, h.sessions[u].room.value);
      assert OnlyTold(h.sessions, t.sessions) by {
        ToldIsNumberedFor(h, u, shares);
      }
      TellingIsSound(h, t);
      OneToldRoutesAlike(h.sessions, u, shares, h.rooms);
      TablesAgree(h.sessions, h.rooms, t.sessions, h.rooms);
      AllAudiencesAgree(h.sessions, h.rooms, t.sessions, h.rooms);
    }
  }

  lemma ToldIsNumberedFor(h: Hub, u: UserId, shares: seq<Audience>)
    requires u in h.sessions
    ensures OnlyTold(h.sessions, h.sessions[u := Told(h.sessions[u], shares)])
  {
    if Numbered(h.sessions[u]) {
      ToldIsNumbered(h.sessions[u], shares);
    }
    SameSet(h.sessions[u := Told(h.sessions[u], shares)].Keys, h.sessions.Keys);
  }

  lemma OneToldRoutesAlike(sessions: Sessions, u: UserId, shares: seq<Audience>, rooms: Rooms)
    requires u in sessions
    ensures SameRouting(sessions, rooms, sessions[u := Told(sessions[u], shares)], rooms)
  {
    SameSet(Placed(sessions), Placed(sessions[u := Told(sessions[u], shares)]));
  }

  // ---- Moving --------------------------------------------------------------------------

  /** Tracks nobody has or had. */
  ghost predicate AreNew(sessions: Sessions, tracks: Tracks, nextMedia: nat) {
    && FromOne(tracks) && tracks.mic + 3 <= nextMedia
    && forall u :: u in sessions && sessions[u].tracks.Some? ==> sessions[u].tracks.value.mic + 3 <= tracks.mic
  }

  lemma BumpKeeps(h: Hub, rooms: set<RoomId>, luck: Luck)
    requires Sound(h) && CanBump(h, rooms, luck)
    ensures Sound(Bump(h, rooms))
    ensures forall r :: MembersOf(Bump(h, rooms).rooms, r) == MembersOf(h.rooms, r)
  {
    var t := Bump(h, rooms);
    forall r ensures MembersOf(t.rooms, r) == MembersOf(h.rooms, r) {
    }
    forall u | u in t.sessions ensures SessionFits(t.sessions, t.rooms, u) {
      assert SessionFits(h.sessions, h.rooms, u);
    }
    forall r | r in t.rooms ensures SharesIn(t, r) <= MAX_ROOM_SHARES {
      assert SharesIn(h, r) <= MAX_ROOM_SHARES && t.rooms[r].members == h.rooms[r].members;
    }
    SameSet(t.rooms.Keys, h.rooms.Keys);
    SameSet(t.storedEpochs.Keys, h.storedEpochs.Keys);
  }

  lemma MovedMembers(h: Hub, u: UserId, target: Option<RoomId>, tracks: Option<Tracks>, r: RoomId)
    requires InStep(h.sessions, h.rooms) && RoomOf(h.sessions, u) != target
    ensures MembersOf(Move(h, u, target, tracks).rooms, r) ==
      if r in h.rooms && target == Some(r) then h.rooms[r].members + {u}
      else MembersOf(h.rooms, r) - {u}
    ensures r in Move(h, u, target, tracks).rooms <==> r in h.rooms
    ensures r in h.rooms ==> Move(h, u, target, tracks).rooms[r].epoch == h.rooms[r].epoch
  {
    if r in h.rooms && RoomOf(h.sessions, u) != Some(r) {
      assert u !in h.rooms[r].members;
      WithoutStranger(h.rooms[r].members, u);
    }
  }

  lemma WithoutStranger(s: set<int>, x: int)
    requires x !in s
    ensures s - {x} == s
  {
  }

  lemma MoveInStep(h: Hub, u: UserId, target: Option<RoomId>, tracks: Option<Tracks>)
    requires InStep(h.sessions, h.rooms) && u in h.sessions && h.sessions[u].room != target
    requires target.Some? ==> target.value in h.rooms
    requires tracks.Some? <==> target.Some?
    ensures var t := Move(h, u, target, tracks); InStep(t.sessions, t.rooms)
  {
    hide With, HubModel.Without, Move;
    var t := Move(h, u, target, tracks);
    MoveTouches(h, u, target, tracks);
    forall v | v in t.sessions ensures SessionFits(t.sessions, t.rooms, v) {
      assert SessionFits(h.sessions, h.rooms, v);
      if t.sessions[v].room.Some? {
        MovedMembers(h, u, target, tracks, t.sessions[v].room.value);
      }
    }
    forall r, v | r in t.rooms && v in t.rooms[r].members ensures RoomOf(t.sessions, v) == Some(r) {
      MovedMembers(h, u, target, tracks, r);
      if v != u {
        assert v in h.rooms[r].members;
        assert RoomOf(h.sessions, v) == Some(r);
      }
    }
  }

  lemma MoveTouches(h: Hub, u: UserId, target: Option<RoomId>, tracks: Option<Tracks>)
    requires u in h.sessions
    ensures var t := Move(h, u, target, tracks);
      && t == h.(rooms := t.rooms, sessions := t.sessions)
      && t.sessions == h.sessions[u := h.sessions[u].(room := target, tracks := tracks, share := None, watching := [])]
  {
  }

  lemma MoveCaps(h: Hub, u: UserId, target: Option<RoomId>, tracks: Option<Tracks>)
    requires InStep(h.sessions, h.rooms) && WithinCaps(h) && u in h.sessions && h.sessions[u].room != target
    requires target.Some? ==> target.value in h.rooms && |h.rooms[target.value].members| < MAX_ROOM_MEMBERS
    ensures WithinCaps(Move(h, u, target, tracks))
  {
    hide With, HubModel.Without, Move;
    var t := Move(h, u, target, tracks);
    MoveTouches(h, u, target, tracks);
    SameSet(t.sessions.Keys, h.sessions.Keys);
    forall r | r in t.rooms ensures |t.rooms[r].members| <= MAX_ROOM_MEMBERS && t.rooms[r].epoch <= U32_MAX && r < t.nextRoom && SharesIn(t, r) <= MAX_ROOM_SHARES {
      MovedMembers(h, u, target, tracks, r);
      assert SharesIn(h, r) <= MAX_ROOM_SHARES;
      FewerShare(h, t, u, r);
      if target == Some(r) {
        OneMoreMember(h.rooms[r].members, u);
      } else {
        FewerMembers(h.rooms[r].members, u);
      }
    }
  }

  lemma OneMoreMember(s: set<int>, x: int)
    ensures |s + {x}| <= |s| + 1
  {
    if x in s {
      assert s + {x} == s;
    }
  }

  lemma FewerMembers(s: set<int>, x: int)
    ensures |s - {x}| <= |s|
  {
    if x !in s {
      assert s - {x} == s;
    }
  }

  /** Whoever moves stops sharing. */
  lemma FewerShare(h: Hub, t: Hub, u: UserId, r: RoomId)
    requires u in h.sessions && u in t.sessions && t.sessions == h.sessions[u := t.sessions[u]] && t.sessions[u].share.None?
    requires MembersOf(t.rooms, r) <= MembersOf(h.rooms, r) + {u}
    ensures SharesIn(t, r) <= SharesIn(h, r)
  {
    var after, before := Sharing(t.sessions, MembersOf(t.rooms, r)), Sharing(h.sessions, MembersOf(h.rooms, r));
    forall m ensures m in after ==> m in before {
    }
    Within(after, before);
    Fewer(after, before);
  }

  lemma MoveKeeps(h: Hub, u: UserId, target: Option<RoomId>, tracks: Option<Tracks>)
    requires Sound(h) && u in h.sessions && h.sessions[u].room != target
    requires target.Some? ==> target.value in h.rooms && |h.rooms[target.value].members| < MAX_ROOM_MEMBERS
    requires tracks.Some? <==> target.Some?
    requires tracks.Some? ==> AreNew(h.sessions, tracks.value, h.nextMedia)
    ensures Sound(Move(h, u, target, tracks))
    ensures forall audiences :: KnowBut(h.sessions, audiences, None) ==> KnowBut(Move(h, u, target, tracks).sessions, audiences, Some(u))
    ensures target.None? ==> forall audiences :: KnowBut(h.sessions, audiences, None) ==> KnowBut(Move(h, u, target, tracks).sessions, audiences, None)
  {
    hide With, HubModel.Without, Move, InStep, WithinCaps, Numbered;
    var t := Move(h, u, target, tracks);
    MoveTouches(h, u, target, tracks);
    MoveInStep(h, u, target, tracks);
    MoveCaps(h, u, target, tracks);
    forall r ensures r in t.rooms <==> r in h.rooms {
      MovedMembers(h, u, target, tracks, r);
    }
    forall r | r in t.rooms ensures t.storedEpochs[r] == t.rooms[r].epoch {
      MovedMembers(h, u, target, tracks, r);
    }
    SameSet(t.rooms.Keys, h.rooms.Keys);
    assert Numbered(t.sessions[u]) by {
      assert Numbered(h.sessions[u]);
      SameNumbers(h.sessions[u], t.sessions[u]);
    }
  }

  lemma SameNumbers(s: Session, t: Session)
    requires Numbered(s) && t.told == s.told && t.audienceSeq == s.audienceSeq
    ensures Numbered(t)
  {
  }
}
