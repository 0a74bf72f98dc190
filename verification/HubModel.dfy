/**
 Rooms, sessions and routes on the server, as one value. What depends on the database, a
 permission or a rate is a parameter of the operation. `Hubs.Hub` keeps the same fields and is
 proved to do what these functions say.
 */
module HubModel {
  import opened Collections

  type UserId = int
  type RoomId = int
  type MediaId = int
  type ConnId = nat
  type Epoch = nat

  const MAX_ROOM_MEMBERS: nat := 30
  const MAX_ROOM_SHARES: nat := 5
  const MAX_WATCHED: nat := 2 * MAX_ROOM_SHARES
  const MAX_ONLINE: nat := 250
  const MAX_SIGNED_IN: nat := MAX_ONLINE + 10
  const MAX_WRAPPED_BYTES: nat := 256
  const TRACKS_PER_MEMBERSHIP: nat := 3
  const U32_MAX: nat := 0xFFFF_FFFF

  /** The tracks of one membership: a microphone, and one share's picture and sound. */
  datatype Tracks = Tracks(mic: MediaId, video: MediaId, audio: MediaId)

  datatype Kind = AudioKind | VideoKind

  /** Where a track's packets go: to these connections. */
  datatype Route = Route(owner: ConnId, kind: Kind, subscribers: seq<ConnId>)

  type Table = map<MediaId, Route>

  datatype Audience = Audience(video: MediaId, receivers: seq<UserId>)

  datatype Audiences = Audiences(seqNo: nat, shares: seq<Audience>)

  datatype EncryptionKey = EncryptionKey(key: int, notAfter: int)

  /** A signed-in user's connection. `share` is how they share their screen, if they do, and
      `told` every `Audiences` sent to it. */
  datatype Session = Session(
    conn: ConnId,
    room: Option<RoomId>,
    tracks: Option<Tracks>,
    encryptionKey: Option<EncryptionKey>,
    deafened: bool,
    share: Option<int>,
    watching: seq<MediaId>,
    audienceSeq: nat,
    told: seq<Audiences>)

  datatype Entry = Entry(epoch: Epoch, members: set<UserId>)

  type Sessions = map<UserId, Session>
  type Rooms = map<RoomId, Entry>

  datatype Hub = Hub(
    sessions: Sessions,
    rooms: Rooms,
    table: Table,
    audiences: map<RoomId, seq<Audience>>,
    nextConn: nat,
    nextRoom: RoomId,
    nextMedia: nat,                   // kept by the database
    storedEpochs: map<RoomId, Epoch>) // likewise

  // ---- Routes from scratch -------------------------------------------------------------

  function Ordered(s: set<int>): seq<int> {
    if s == {} then [] else [Min(s)] + Ordered(s - {Min(s)})
  }

  function MembersOf(rooms: Rooms, room: RoomId): set<UserId> {
    if room in rooms then rooms[room].members else {}
  }

  /** The other members of a room, with their sessions. */
  function OthersIn(sessions: Sessions, members: set<UserId>, u: UserId): set<UserId> {
    set m | m in members && m in sessions && m != u
  }

  function Hearing(sessions: Sessions, members: set<UserId>, u: UserId): set<UserId> {
    set m | m in OthersIn(sessions, members, u) && !sessions[m].deafened
  }

  predicate Sees(s: Session, t: Tracks) {
    t.video in s.watching
  }

  predicate Hears(s: Session, t: Tracks) {
    t.audio in s.watching && !s.deafened
  }

  function Seeing(sessions: Sessions, members: set<UserId>, u: UserId, t: Tracks): set<UserId> {
    set m | m in OthersIn(sessions, members, u) && Sees(sessions[m], t)
  }

  function HearingShare(sessions: Sessions, members: set<UserId>, u: UserId, t: Tracks): set<UserId> {
    set m | m in OthersIn(sessions, members, u) && Hears(sessions[m], t)
  }

  function Receivers(sessions: Sessions, members: set<UserId>, u: UserId, t: Tracks): set<UserId> {
    set m | m in OthersIn(sessions, members, u) && (Sees(sessions[m], t) || Hears(sessions[m], t))
  }

  function ConnsOf(sessions: Sessions, users: seq<UserId>): seq<ConnId> {
    if users == [] then []
    else (if users[0] in sessions then [sessions[users[0]].conn] else []) + ConnsOf(sessions, users[1..])
  }

  function RouteTo(sessions: Sessions, owner: ConnId, kind: Kind, users: set<UserId>): Route {
    Route(owner, kind, ConnsOf(sessions, Ordered(users)))
  }

  /** The three routes of one member. */
  function RoutesOf(sessions: Sessions, members: set<UserId>, u: UserId): Table {
    if u !in sessions || sessions[u].tracks.None? then map[] else
    var t, owner := sessions[u].tracks.value, sessions[u].conn;
    map[t.mic := RouteTo(sessions, owner, AudioKind, Hearing(sessions, members, u)),
        t.video := RouteTo(sessions, owner, VideoKind, Seeing(sessions, members, u, t)),
        t.audio := RouteTo(sessions, owner, AudioKind, HearingShare(sessions, members, u, t))]
  }

  function IdsOf(t: Tracks): set<MediaId> {
    {t.mic, t.video, t.audio}
  }

  predicate SendsOn(sessions: Sessions, u: UserId, id: MediaId) {
    u in sessions && sessions[u].tracks.Some? && id in IdsOf(sessions[u].tracks.value)
  }

  function RoomOf(sessions: Sessions, u: UserId): Option<RoomId> {
    if u in sessions then sessions[u].room else None
  }

  /** Everyone in a room. */
  function Placed(sessions: Sessions): set<UserId> {
    set u | u in sessions && sessions[u].room.Some?
  }

  function SentIds(sessions: Sessions, users: set<UserId>): set<MediaId> {
    set u, id | u in users && u in sessions && sessions[u].tracks.Some? && id in IdsOf(sessions[u].tracks.value) :: id
  }

  function SendersAmong(sessions: Sessions, users: set<UserId>, id: MediaId): set<UserId> {
    set u | u in users && SendsOn(sessions, u, id)
  }

  /** The route of one track of `u`, in their room. */
  function RouteFor(sessions: Sessions, rooms: Rooms, u: UserId, id: MediaId): Route {
    var members := if RoomOf(sessions, u).Some? then MembersOf(rooms, RoomOf(sessions, u).value) else {};
    var routes := RoutesOf(sessions, members, u);
    if id in routes then routes[id] else Route(0, AudioKind, [])
  }

  /** The routes of the tracks some users send on. */
  function TableAmong(sessions: Sessions, rooms: Rooms, users: set<UserId>): Table {
    map id | id in SentIds(sessions, users) && SendersAmong(sessions, users, id) != {} ::
      RouteFor(sessions, rooms, Max(SendersAmong(sessions, users, id)), id)
  }

  /** The forwarding table, from scratch. */
  function TableOf(sessions: Sessions, rooms: Rooms): Table {
    TableAmong(sessions, rooms, Placed(sessions))
  }

  /** Who receives the share of one member, while it runs and anyone does. */
  function AudienceOf(sessions: Sessions, members: set<UserId>, u: UserId): seq<Audience> {
    if u !in sessions || sessions[u].tracks.None? || sessions[u].share.None? then [] else
    var t := sessions[u].tracks.value;
    var receivers := Ordered(Receivers(sessions, members, u, t));
    if receivers == [] then [] else [Audience(t.video, receivers)]
  }

  function AudienceList(sessions: Sessions, members: set<UserId>, users: seq<UserId>): seq<Audience> {
    if users == [] then []
    else AudienceList(sessions, members, users[..|users| - 1]) + AudienceOf(sessions, members, users[|users| - 1])
  }

  /** Who receives each running share of a room, from scratch. */
  function AudiencesIn(sessions: Sessions, rooms: Rooms, room: RoomId): seq<Audience> {
    AudienceList(sessions, MembersOf(rooms, room), Ordered(MembersOf(rooms, room)))
  }

  function AllAudiences(sessions: Sessions, rooms: Rooms): map<RoomId, seq<Audience>> {
    map r | r in rooms && AudiencesIn(sessions, rooms, r) != [] :: AudiencesIn(sessions, rooms, r)
  }

  function ListOf(audiences: map<RoomId, seq<Audience>>, room: RoomId): seq<Audience> {
    if room in audiences then audiences[room] else []
  }

  // ---- Telling connections -------------------------------------------------------------

  /** A session after one more announcement, numbered one higher than the last. */
  function Told(s: Session, shares: seq<Audience>): Session {
    s.(audienceSeq := s.audienceSeq + 1, told := s.told + [Audiences(s.audienceSeq + 1, shares)])
  }

  function ChangedRooms(h: Hub): set<RoomId> {
    set r | r in h.rooms && AudiencesIn(h.sessions, h.rooms, r) != ListOf(h.audiences, r)
  }

  function AllTold(h: Hub): Sessions {
    map u | u in h.sessions ::
      var s := h.sessions[u];
      if s.room.Some? && s.room.value in ChangedRooms(h) && u in MembersOf(h.rooms, s.room.value)
      then Told(s, AudiencesIn(h.sessions, h.rooms, s.room.value)) else s
  }

  /** The hub with the table and lists of now, and an announcement to each member of a room
      whose list differs. */
  function Rebuild(h: Hub): Hub {
    h.(table := TableOf(h.sessions, h.rooms),
       audiences := AllAudiences(h.sessions, h.rooms),
       sessions := AllTold(h))
  }

  // ---- Moving between rooms ------------------------------------------------------------

  datatype Placement =
    | Lobby
    | InRoom(room: RoomId, epoch: Epoch, tracks: Option<Tracks>, audiences: Audiences)

  datatype Outcome<T> = Done(value: T) | Refused

  /** What the database makes of the writes of one operation. */
  datatype Luck = Luck(mediaWrites: bool, epochsWrite: bool)

  function Reserve(h: Hub, luck: Luck): Option<Tracks> {
    if luck.mediaWrites && h.nextMedia + TRACKS_PER_MEMBERSHIP - 1 <= U32_MAX
    then Some(Tracks(h.nextMedia, h.nextMedia + 1, h.nextMedia + 2)) else None
  }

  predicate CanBump(h: Hub, rooms: set<RoomId>, luck: Luck) {
    luck.epochsWrite && forall r :: r in rooms ==> r in h.rooms && h.rooms[r].epoch + 1 <= U32_MAX
  }

  /** Each of `rooms` at its next epoch, on disk too. */
  function Bump(h: Hub, rooms: set<RoomId>): Hub {
    h.(rooms := map r | r in h.rooms :: if r in rooms then h.rooms[r].(epoch := h.rooms[r].epoch + 1) else h.rooms[r],
       storedEpochs := map r | r in h.storedEpochs :: if r in rooms && r in h.rooms then h.rooms[r].epoch + 1 else h.storedEpochs[r])
  }

  function OneRoom(room: Option<RoomId>): set<RoomId> {
    if room.Some? then {room.value} else {}
  }

  function Without(rooms: Rooms, room: Option<RoomId>, u: UserId): Rooms {
    if room.Some? && room.value in rooms
    then rooms[room.value := rooms[room.value].(members := rooms[room.value].members - {u})] else rooms
  }

  function With(rooms: Rooms, room: Option<RoomId>, u: UserId): Rooms {
    if room.Some? && room.value in rooms
    then rooms[room.value := rooms[room.value].(members := rooms[room.value].members + {u})] else rooms
  }

  /** The hub with `u` moved, sharing and watching nothing. Without a session nothing changes. */
  function SetMembership(h: Hub, u: UserId, room: Option<RoomId>, tracks: Option<Tracks>): Hub {
    if u !in h.sessions then h
    else h.(sessions := h.sessions[u := h.sessions[u].(room := room, tracks := tracks, share := None, watching := [])])
  }

  /** The placement of `u` now, which counts as telling its connection of the audiences. */
  function PlacementOf(h: Hub, u: UserId): (Hub, Placement) {
    if u !in h.sessions || h.sessions[u].room.None? then (h, Lobby) else
    var s := h.sessions[u];
    var told := Told(s, ListOf(h.audiences, s.room.value));
    (h.(sessions := h.sessions[u := told]),
     InRoom(s.room.value, if s.room.value in h.rooms then h.rooms[s.room.value].epoch else 0, s.tracks,
            Audiences(told.audienceSeq, ListOf(h.audiences, s.room.value))))
  }

  function Move(h: Hub, u: UserId, target: Option<RoomId>, tracks: Option<Tracks>): Hub {
    var current := RoomOf(h.sessions, u);
    SetMembership(h.(rooms := With(Without(h.rooms, current, u), target, u)), u, target, tracks)
  }

  /** A move with all that belongs to it; or, refused, the hub as it was but for used-up media
      ids. */
  function Place(h: Hub, u: UserId, target: Option<RoomId>, hasKey: bool, luck: Luck): (Hub, Outcome<Placement>) {
    if u !in h.sessions then (h, Refused) else
    var current := h.sessions[u].room;
    if current == target then
      var (after, placement) := PlacementOf(h, u);
      (after, Done(placement))
    else if target.Some? && (target.value !in h.rooms || |h.rooms[target.value].members| >= MAX_ROOM_MEMBERS || !hasKey) then (h, Refused)
    else if target.Some? && Reserve(h, luck).None? then (h, Refused)
    else
      var tracks := if target.Some? then Reserve(h, luck) else None;
      var reserved := if target.Some? then h.(nextMedia := h.nextMedia + TRACKS_PER_MEMBERSHIP) else h;
      var changed := OneRoom(current) + OneRoom(target);
      if !CanBump(reserved, changed, luck) then (reserved, Refused)
      else
        var (after, placement) := PlacementOf(Rebuild(Move(Bump(reserved, changed), u, target, tracks)), u);
        (after, Done(placement))
  }

  /** Like a move to the lobby, but one that can't be refused: then the epoch stays. */
  function LeaveRoom(h: Hub, u: UserId, luck: Luck): Hub {
    if u !in h.sessions then h else
    match Place(h, u, None, false, luck)
    case (after, Done(_)) => after
    case (after, Refused) =>
      if after.sessions[u].room.None? then after else Rebuild(Move(after, u, None, None))
  }

  // ---- Connections ---------------------------------------------------------------------

  function Evict(h: Hub, u: UserId, luck: Luck): Hub {
    var left := LeaveRoom(h, u, luck);
    left.(sessions := left.sessions - {u})
  }

  predicate IsFull(h: Hub, admin: bool) {
    |h.sessions| >= MAX_SIGNED_IN || (!admin && |h.sessions| >= MAX_ONLINE)
  }

  function NewSession(conn: ConnId, key: Option<EncryptionKey>): Session {
    Session(conn, None, None, key, false, None, [], 0, [])
  }

  /** Signs `u` in again, out of every room. */
  function SignIn(h: Hub, u: UserId, key: Option<EncryptionKey>, luck: Luck): Hub {
    var evicted := Evict(h, u, luck);
    evicted.(nextConn := h.nextConn + 1, sessions := evicted.sessions[u := NewSession(h.nextConn + 1, key)])
  }

  /** Registers a connection of `u`, which replaces the last one, and returns it to the room it
      may rejoin, if it wants one. */
  function Connect(h: Hub, u: UserId, admin: bool, key: Option<EncryptionKey>, rejoin: Option<RoomId>, hasKey: bool,
                   evicting: Luck, rejoining: Luck): (Hub, Outcome<Placement>) {
    if IsFull(h, admin) && u !in h.sessions then (h, Refused) else
    var signedIn := SignIn(h, u, key, evicting);
    if rejoin.None? then (signedIn, Done(Lobby)) else
    var (after, placed) := Place(signedIn, u, rejoin, hasKey, rejoining);
    (after, if placed.Done? then placed else Done(Lobby))
  }

  function Disconnect(h: Hub, u: UserId, conn: ConnId, luck: Luck): Hub {
    if u in h.sessions && h.sessions[u].conn == conn then Evict(h, u, luck) else h
  }

  // ---- Requests ------------------------------------------------------------------------

  function Sharing(sessions: Sessions, members: set<UserId>): set<UserId> {
    set m | m in members && m in sessions && sessions[m].share.Some?
  }

  function SharesIn(h: Hub, room: RoomId): nat {
    |Sharing(h.sessions, MembersOf(h.rooms, room))|
  }

  predicate RefusesShare(h: Hub, u: UserId, share: Option<int>, allowed: bool)
    requires u in h.sessions && h.sessions[u].room.Some?
  {
    var stored := h.sessions[u].share;
    || (share.Some? && stored.None? && SharesIn(h, h.sessions[u].room.value) >= MAX_ROOM_SHARES)
    || (share.Some? && share != stored && !allowed)
  }

  /** Deafening always applies. A share applies unless it is refused, and then stays as it was. */
  function SetMedia(h: Hub, u: UserId, deafened: bool, share: Option<int>, allowed: bool): (Hub, Outcome<()>) {
    if RoomOf(h.sessions, u).None? then (h, Refused) else
    var stored := h.sessions[u];
    var refused := RefusesShare(h, u, share, allowed);
    var applied := stored.(deafened := deafened, share := if refused then stored.share else share);
    var set' := h.(sessions := h.sessions[u := applied]);
    (if applied.deafened != stored.deafened || applied.share.Some? != stored.share.Some? then Rebuild(set') else set',
     if refused then Refused else Done(()))
  }

  predicate IsShareOf(h: Hub, u: UserId, id: MediaId) {
    u in h.sessions && h.sessions[u].tracks.Some? && (id == h.sessions[u].tracks.value.video || id == h.sessions[u].tracks.value.audio)
  }

  function Sharers(h: Hub, id: MediaId): set<UserId> {
    set u | u in h.sessions && IsShareOf(h, u, id)
  }

  /** A share track of someone else in `room`. */
  predicate MayWatch(h: Hub, u: UserId, room: RoomId, id: MediaId) {
    Sharers(h, id) != {} && forall owner :: owner in Sharers(h, id) ==> owner != u && h.sessions[owner].room == Some(room)
  }

  function SetWatched(h: Hub, u: UserId, ids: seq<MediaId>): (Hub, Outcome<()>) {
    if |ids| > MAX_WATCHED || RoomOf(h.sessions, u).None? then (h, Refused)
    else if !(forall i :: 0 <= i < |ids| ==> MayWatch(h, u, h.sessions[u].room.value, ids[i])) then (h, Refused)
    else (Rebuild(h.(sessions := h.sessions[u := h.sessions[u].(watching := ids)])), Done(()))
  }

  /** Stores a valid encryption key. A new key moves the user's room to its next epoch. */
  function SetEncryptionKey(h: Hub, u: UserId, key: EncryptionKey, allowed: bool, luck: Luck): (Hub, Outcome<()>) {
    if u !in h.sessions then (h, Refused)
    else if h.sessions[u].encryptionKey == Some(key) then (h, Done(()))
    else if !allowed then (h, Refused)
    else
      var stored := h.sessions[u].encryptionKey;
      var kept := h.(sessions := h.sessions[u := h.sessions[u].(encryptionKey := Some(key))]);
      if h.sessions[u].room.None? || (stored.Some? && stored.value.key == key.key) then (kept, Done(()))
      else if CanBump(kept, {h.sessions[u].room.value}, luck) then (Bump(kept, {h.sessions[u].room.value}), Done(()))
      else (kept, Refused)
  }

  function KickFromRoom(h: Hub, target: UserId, room: RoomId, allowed: bool, luck: Luck): (Hub, Outcome<()>) {
    if RoomOf(h.sessions, target) != Some(room) || !allowed then (h, Refused)
    else (LeaveRoom(h, target, luck), Done(()))
  }

  /** Wrapped secrets, by recipient and length, that a member may publish: of the room's epoch, each
      for another member, once, and no larger than allowed. */
  predicate MayPublish(h: Hub, u: UserId, epoch: int, wrapped: seq<(UserId, nat)>) {
    && RoomOf(h.sessions, u).Some? && RoomOf(h.sessions, u).value in h.rooms
    && var entry := h.rooms[RoomOf(h.sessions, u).value];
    && epoch == entry.epoch
    && (forall i :: 0 <= i < |wrapped| ==>
          wrapped[i].0 != u && wrapped[i].0 in entry.members && wrapped[i].1 <= MAX_WRAPPED_BYTES)
    && (forall i, j :: 0 <= i < j < |wrapped| ==> wrapped[i].0 != wrapped[j].0)
  }

  /** A wrapped secret of `from` on its way down a connection. */
  datatype KeyEvent = KeyEvent(conn: ConnId, from: UserId, epoch: Epoch, length: nat)

  /** Moves users out of their rooms, one after another, until one can't be. */
  function PlaceOut(h: Hub, users: seq<UserId>, lucks: UserId -> Luck): (Hub, Outcome<()>)
    decreases |users|
  {
    if users == [] then (h, Done(())) else
    var (after, placed) := Place(h, users[0], None, false, lucks(users[0]));
    if placed.Refused? then (after, Refused) else PlaceOut(after, users[1..], lucks)
  }

  function DeleteRoom(h: Hub, room: RoomId, allowed: bool, lucks: UserId -> Luck, deletes: bool): (Hub, Outcome<()>) {
    if room !in h.rooms || !allowed then (h, Refused) else
    var (after, out) := PlaceOut(h, Ordered(h.rooms[room].members), lucks);
    if out.Refused? || !deletes then (after, Refused)
    else (after.(rooms := after.rooms - {room}, storedEpochs := after.storedEpochs - {room}), Done(()))
  }

  function AddRoom(h: Hub, creates: bool): (Hub, Outcome<()>) {
    if !creates then (h, Refused)
    else (h.(rooms := h.rooms[h.nextRoom := Entry(0, {})], storedEpochs := h.storedEpochs[h.nextRoom := 0],
             nextRoom := h.nextRoom + 1), Done(()))
  }

  /** A server that has just started: rooms and epochs as stored, nobody signed in. */
  function Started(epochs: map<RoomId, Epoch>, nextRoom: RoomId, nextMedia: nat): Hub {
    Hub(map[], map r | r in epochs :: Entry(epochs[r], {}), map[], map[], 0, nextRoom, nextMedia, epochs)
  }
}
