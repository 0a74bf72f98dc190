/**
 One client's side of the sender keys in a room: its own secret, those of its peers, and what
 decides whom to trust with it. Cryptography is abstract: a secret is a token nobody else can
 make, a signature names who made it over what, and a sealed secret opens for exactly the keys
 and context it was sealed with.
 */
module KeyModel {
  import opened Collections

  type UserId = int
  type RoomId = int
  type Epoch = int
  type MediaId = int
  type PublicKey = int
  type Server = int
  /** Nanoseconds. */
  type Time = int

  const OLD_KEY_GRACE: Time := 2_000_000_000
  const RETIRED_ENCRYPTION_KEPT: Time := 5 * OLD_KEY_GRACE
  const MAX_ROOM_MEMBERS: nat := 30
  const MAX_SIGNED_IN: nat := 260
  const MAX_EARLY: nat := 2 * MAX_ROOM_MEMBERS
  const WRAPPED_BYTES: nat := 80

  datatype Secret = Secret(owner: UserId, serial: nat)

  datatype TrackKey = Derived(secret: Secret, mediaId: MediaId)

  datatype Context = Context(server: Server, room: RoomId, epoch: Epoch, sender: UserId, to: UserId)

  /** A wrapped secret, or bytes that open for nobody. */
  datatype Blob =
    | Sealed(secret: Secret, context: Context, sealedBy: PublicKey, sealedTo: PublicKey)
    | Junk(length: nat)
  {
    function Length(): nat {
      if Sealed? then WRAPPED_BYTES else length
    }
  }

  /** Opens `blob` with the key pair whose public half is `mine`. */
  function Unwrap(mine: PublicKey, theirs: PublicKey, context: Context, blob: Blob): Option<Secret> {
    if blob.Sealed? && blob.context == context && blob.sealedBy == theirs && blob.sealedTo == mine
    then Some(blob.secret) else None
  }

  datatype Signature =
    | By(identity: PublicKey, server: Server, user: UserId, notAfter: nat, key: PublicKey)
    | Forged

  datatype SignedKey = SignedKey(key: PublicKey, notAfter: nat, sig: Signature)

  datatype ShareTracks = ShareTracks(video: MediaId, audio: MediaId)

  datatype Tracks = Tracks(mic: MediaId, shares: seq<ShareTracks>)

  function ShareIds(shares: seq<ShareTracks>): seq<MediaId> {
    if shares == [] then [] else [shares[0].video, shares[0].audio] + ShareIds(shares[1..])
  }

  function TrackIds(tracks: Tracks): seq<MediaId> {
    [tracks.mic] + ShareIds(tracks.shares)
  }

  /** A room member as the server describes them; `share` is how they share their screen. */
  datatype Peer = Peer(user: UserId, tracks: Tracks, share: int, identityKey: PublicKey, encryptionKey: SignedKey)

  datatype KeyPeer = KeyPeer(identityKey: PublicKey, encryptionKey: PublicKey, tracks: Tracks)

  datatype Received = Received(secret: Secret, retireAt: Option<Time>)

  type KeyPeers = map<UserId, KeyPeer>
  type SenderAt = (UserId, Epoch)
  type ReceivedKeys = map<SenderAt, Received>
  type CachedKeys = map<(MediaId, Epoch), (UserId, TrackKey)>
  type EarlyKeys = map<SenderAt, (Time, Blob)>
  type Floors = map<(UserId, RoomId), Epoch>

  datatype Stash = Stash(room: RoomId, epoch: Epoch, peers: seq<Peer>)

  /** A request to hand our secret to each recipient. */
  datatype Publish = Publish(epoch: Epoch, wrapped: map<UserId, Blob>)

  datatype Keys = Keys(
    me: UserId,
    server: Server,
    weak: set<PublicKey>,           // keys HPKE refuses to wrap to
    encryption: PublicKey,
    retiredEncryption: Option<(PublicKey, Time)>,
    present: map<UserId, RoomId>,
    roomPeers: seq<Peer>,
    room: Option<RoomId>,
    epoch: Epoch,
    epochSince: Time,
    floors: Floors,
    floor: Option<Epoch>,
    myTracks: Option<Tracks>,
    peers: KeyPeers,
    owners: map<MediaId, UserId>,
    mySecret: Option<Secret>,
    wrappedTo: set<(UserId, PublicKey)>,
    unwrappable: map<UserId, PublicKey>,
    sendKeys: map<MediaId, TrackKey>,
    received: ReceivedKeys,
    recvKeys: CachedKeys,
    early: EarlyKeys,
    stashed: Option<Stash>,
    generation: nat,
    serial: nat)                    // how many secrets were made so far

  function New(me: UserId, server: Server, weak: set<PublicKey>, encryption: PublicKey, floors: Floors,
               now: Time, serial: nat): Keys {
    Keys(me, server, weak, encryption, None, map[], [], None, 0, now, floors, None, None, map[], map[],
         None, {}, map[], map[], map[], map[], map[], None, 0, serial)
  }

  // ---- Presence ------------------------------------------------------------------------

  function Presence(present: map<UserId, RoomId>, user: UserId): Option<RoomId> {
    if user in present then Some(present[user]) else None
  }

  predicate PresenceIsFull(s: Keys, user: UserId, room: Option<RoomId>) {
    room.Some? && |s.present| >= MAX_SIGNED_IN && user !in s.present
  }

  /** Where `user` is shown from now on, and whether our room gained or lost them by it. */
  function SetPresence(s: Keys, user: UserId, room: Option<RoomId>): (Keys, bool) {
    if PresenceIsFull(s, user, room) then (s, false) else
    (s.(present := if room.Some? then s.present[user := room.value] else s.present - {user}),
     user != s.me && s.room.Some? && (Presence(s.present, user) == s.room) != (room == s.room))
  }

  // ---- Who is trusted ------------------------------------------------------------------

  predicate SignedByIdentity(server: Server, p: Peer) {
    p.encryptionKey.sig == By(p.identityKey, server, p.user, p.encryptionKey.notAfter, p.encryptionKey.key)
  }

  /** What it takes to be given our secret: presence in the room, a key that is in date,
      vouched for by the peer's own identity, and not one that HPKE turned down. */
  predicate IsTrusted(s: Keys, room: RoomId, p: Peer, unix: nat) {
    && p.user != s.me
    && Presence(s.present, p.user) == Some(room)
    && unix < p.encryptionKey.notAfter
    && SignedByIdentity(s.server, p)
    && !(p.user in s.unwrappable && s.unwrappable[p.user] == p.encryptionKey.key)
  }

  function KeysOf(p: Peer): KeyPeer {
    KeyPeer(p.identityKey, p.encryptionKey.key, p.tracks)
  }

  function Trusted(s: Keys, room: RoomId, peers: seq<Peer>, unix: nat): KeyPeers {
    if peers == [] then map[] else
    var p := peers[|peers| - 1];
    var rest := Trusted(s, room, peers[..|peers| - 1], unix);
    if IsTrusted(s, room, p, unix) then rest[p.user := KeysOf(p)] else rest
  }

  function Users(peers: seq<Peer>): set<UserId> {
    set i | 0 <= i < |peers| :: peers[i].user
  }

  function Others(me: UserId, peers: seq<Peer>): seq<Peer> {
    if peers == [] then []
    else if peers[0].user != me then [peers[0]] + Others(me, peers[1..])
    else Others(me, peers[1..])
  }

  function AllTrackIds(peers: seq<Peer>): seq<MediaId> {
    if peers == [] then [] else TrackIds(peers[0].tracks) + AllTrackIds(peers[1..])
  }

  function UserList(peers: seq<Peer>): seq<UserId> {
    seq(|peers|, i requires 0 <= i < |peers| => peers[i].user)
  }

  predicate Distinct(ids: seq<int>) {
    forall i, j :: 0 <= i < j < |ids| ==> ids[i] != ids[j]
  }

  function MyTrackIds(s: Keys): seq<MediaId> {
    if s.myTracks.Some? then TrackIds(s.myTracks.value) else []
  }

  /** Whether a list can't be told apart: two entries of one user, or one id of two tracks,
      ours among them. */
  predicate ClashingTracks(s: Keys, peers: seq<Peer>) {
    var others := Others(s.me, peers);
    !Distinct(UserList(others)) || !Distinct(MyTrackIds(s) + AllTrackIds(others))
  }

  /** A room state that trusts nobody. */
  predicate IsInvalid(s: Keys, peers: seq<Peer>) {
    |peers| > MAX_ROOM_MEMBERS || ClashingTracks(s, peers)
  }

  function SendersOn(peers: KeyPeers, id: MediaId): set<UserId> {
    set u | u in peers && id in TrackIds(peers[u].tracks)
  }

  function IdsOn(peers: KeyPeers): set<MediaId> {
    set u, id | u in peers && id in TrackIds(peers[u].tracks) :: id
  }

  /** Who sends on each media id. Users are taken in order, so the last one would win. */
  function Owners(peers: KeyPeers): map<MediaId, UserId> {
    map id | id in IdsOn(peers) && SendersOn(peers, id) != {} :: Max(SendersOn(peers, id))
  }

  function PeerSet(peers: KeyPeers): set<(UserId, PublicKey)> {
    set u | u in peers :: (u, peers[u].encryptionKey)
  }

  // ---- Our secret ----------------------------------------------------------------------

  function Retired(r: Received, now: Time): Received {
    if r.retireAt.Some? then r else r.(retireAt := Some(now + OLD_KEY_GRACE))
  }

  function RetireDeparted(received: ReceivedKeys, departed: set<UserId>, now: Time): ReceivedKeys {
    map k | k in received :: if k.0 in departed then Retired(received[k], now) else received[k]
  }

  function RetireBefore(received: ReceivedKeys, epoch: Epoch, now: Time): ReceivedKeys {
    map k | k in received :: if k.1 < epoch then Retired(received[k], now) else received[k]
  }

  function RetireEarlierOf(received: ReceivedKeys, user: UserId, epoch: Epoch, now: Time): ReceivedKeys {
    map k | k in received :: if k.0 == user && k.1 < epoch then Retired(received[k], now) else received[k]
  }

  /** The peers of the last room state that the next one doesn't trust under the same
      identity. */
  function Departed(before: KeyPeers, after: KeyPeers): set<UserId> {
    set u | u in before && (u !in after || after[u].identityKey != before[u].identityKey)
  }

  function Raise(floors: Floors, user: UserId, room: RoomId, epoch: Epoch): Floors {
    if (user, room) !in floors || floors[(user, room)] < epoch then floors[(user, room) := epoch] else floors
  }

  function IdSet(ids: seq<MediaId>): set<MediaId> {
    set i | 0 <= i < |ids| :: ids[i]
  }

  function DeriveAll(secret: Secret, ids: seq<MediaId>): map<MediaId, TrackKey> {
    map id | id in IdSet(ids) :: Derived(secret, id)
  }

  /** Replaces our secret, and moves to `epoch` if that is another one. */
  function StartEpoch(s: Keys, epoch: Epoch, now: Time): Keys {
    var secret := Secret(s.me, s.serial);
    var s := if epoch == s.epoch then s else s.(
      received := RetireBefore(s.received, epoch, now),
      epoch := epoch,
      epochSince := now,
      floors := if s.room.Some? then Raise(s.floors, s.me, s.room.value, epoch) else s.floors);
    s.(serial := s.serial + 1,
       sendKeys := DeriveAll(secret, MyTrackIds(s)),
       mySecret := Some(secret),
       wrappedTo := {})
  }

  predicate IsNew(s: Keys, u: UserId) {
    u in s.peers && (u, s.peers[u].encryptionKey) !in s.wrappedTo
  }

  /** The peers who lack our secret and whose key HPKE refuses. */
  function Refused(s: Keys): set<UserId> {
    set u | u in s.peers && IsNew(s, u) && s.peers[u].encryptionKey in s.weak
  }

  function Recipients(s: Keys): set<UserId> {
    set u | u in s.peers && IsNew(s, u) && s.peers[u].encryptionKey !in s.weak
  }

  function ContextOf(s: Keys, room: RoomId, epoch: Epoch, sender: UserId, to: UserId): Context {
    Context(s.server, room, epoch, sender, to)
  }

  function SealFor(s: Keys, room: RoomId, secret: Secret, u: UserId): Blob
    requires u in s.peers
  {
    Sealed(secret, ContextOf(s, room, s.epoch, s.me, u), s.encryption, s.peers[u].encryptionKey)
  }

  function WrapAll(s: Keys, room: RoomId, secret: Secret): map<UserId, Blob> {
    map u | u in s.peers && u in Recipients(s) :: SealFor(s, room, secret, u)
  }

  function RefusedKeys(peers: KeyPeers, refused: set<UserId>): map<UserId, PublicKey> {
    map u | u in peers && u in refused :: peers[u].encryptionKey
  }

  function GivenTo(s: Keys): set<(UserId, PublicKey)> {
    set u | u in s.peers && u in Recipients(s) :: (u, s.peers[u].encryptionKey)
  }

  function OwnersLeft(owners: map<MediaId, UserId>, refused: set<UserId>): map<MediaId, UserId> {
    map id | id in owners && owners[id] !in refused :: owners[id]
  }

  /** Everyone trusted who hasn't got our secret is sent it, or stops being a peer if HPKE
      turns their key down. */
  function WrapForNewPeers(s: Keys, room: RoomId): (Keys, Option<Publish>) {
    if s.mySecret.None? then (s, None) else
    var refused := Refused(s);
    var wrapped := WrapAll(s, room, s.mySecret.value);
    (s.(unwrappable := s.unwrappable + RefusedKeys(s.peers, refused),
        peers := s.peers - refused,
        owners := OwnersLeft(s.owners, refused),
        wrappedTo := s.wrappedTo + GivenTo(s)),
     if wrapped == map[] then None else Some(Publish(s.epoch, wrapped)))
  }

  // ---- Their secrets -------------------------------------------------------------------

  /** Whether an epoch is too old to be honest: under the floor, or more than one behind ours. */
  predicate BelowFloor(s: Keys, epoch: Epoch) {
    (s.floor.Some? && epoch <= s.floor.value) || epoch + 1 < s.epoch
  }

  datatype KeyError = Stale | WrongLength | Unopened

  /** What becomes of a peer's wrapped secret: refused, held until its room state comes, or
      stored. */
  datatype Verdict = Refuse(error: KeyError) | Hold | Store(secret: Secret, retireAt: Option<Time>)

  function OpenEither(s: Keys, theirs: PublicKey, context: Context, blob: Blob): Option<Secret> {
    var current := Unwrap(s.encryption, theirs, context, blob);
    if current.Some? || s.retiredEncryption.None? then current
    else Unwrap(s.retiredEncryption.value.0, theirs, context, blob)
  }

  function Judge(s: Keys, sender: UserId, epoch: Epoch, blob: Blob, now: Time): Verdict {
    if BelowFloor(s, epoch) then Refuse(Stale)
    else if s.room.None? || sender !in s.peers || epoch > s.epoch then Hold
    else if epoch < s.epoch && now >= s.epochSince + OLD_KEY_GRACE then Refuse(Stale)
    else
      match OpenEither(s, s.peers[sender].encryptionKey, ContextOf(s, s.room.value, epoch, sender, s.me), blob)
      case None => Refuse(Unopened)
      case Some(secret) => Store(secret, if epoch < s.epoch then Some(s.epochSince + OLD_KEY_GRACE) else None)
  }

  function Forget(cached: CachedKeys, owner: UserId, epoch: Epoch): CachedKeys {
    map k | k in cached && !(cached[k].0 == owner && k.1 == epoch) :: cached[k]
  }

  /** From now on the sender's older secrets have a time to go. */
  function StoreKey(s: Keys, k: SenderAt, r: Received, now: Time): Keys {
    s.(received := RetireEarlierOf(s.received, k.0, k.1, now)[k := r],
       recvKeys := Forget(s.recvKeys, k.0, k.1),
       generation := s.generation + 1)
  }

  function SenderKeyAt(s: Keys, sender: UserId, epoch: Epoch, blob: Blob, arrived: Time, now: Time): (Keys, Option<KeyError>) {
    match Judge(s, sender, epoch, blob, now)
    case Refuse(error) => (s, Some(error))
    case Hold =>
      (if |s.early| < MAX_EARLY || (sender, epoch) in s.early
       then s.(early := s.early[(sender, epoch) := (arrived, blob)]) else s, None)
    case Store(secret, retireAt) => (StoreKey(s, (sender, epoch), Received(secret, retireAt), now), None)
  }

  function SenderKey(s: Keys, sender: UserId, epoch: Epoch, blob: Blob, now: Time): (Keys, Option<KeyError>) {
    if blob.Length() != WRAPPED_BYTES then (s, Some(WrongLength))
    else SenderKeyAt(s, sender, epoch, blob, now, now)
  }

  predicate IsFresh(arrived: Time, now: Time) {
    now - arrived < OLD_KEY_GRACE
  }

  function JudgeEarly(s: Keys, k: SenderAt, now: Time): Verdict
    requires k in s.early
  {
    Judge(s, k.0, k.1, s.early[k].1, now)
  }

  /** The early keys among `ids` that their room state now lets us store. */
  function Arrived(s: Keys, ids: set<SenderAt>, now: Time): set<SenderAt> {
    set k | k in ids && k in s.early && IsFresh(s.early[k].0, now) && JudgeEarly(s, k, now).Store?
  }

  predicate IsOvertaken(arrived: set<SenderAt>, k: SenderAt) {
    exists later :: later in arrived && later.0 == k.0 && k.1 < later.1
  }

  function StoredEarly(s: Keys, k: SenderAt, now: Time): Received
    requires k in s.early && JudgeEarly(s, k, now).Store?
  {
    Received(JudgeEarly(s, k, now).secret, JudgeEarly(s, k, now).retireAt)
  }

  function ReceivedWith(s: Keys, arrived: set<SenderAt>, now: Time): ReceivedKeys
    requires forall k :: k in arrived ==> k in s.early && JudgeEarly(s, k, now).Store?
  {
    map k | k in s.received.Keys + arrived ::
      if k in arrived then StoredEarly(s, k, now)
      else if IsOvertaken(arrived, k) then Retired(s.received[k], now)
      else s.received[k]
  }

  function CachedWithout(cached: CachedKeys, arrived: set<SenderAt>): CachedKeys {
    map k | k in cached && (cached[k].0, k.1) !in arrived :: cached[k]
  }

  function StillEarly(s: Keys, ids: set<SenderAt>, now: Time): EarlyKeys {
    map k | k in s.early && k in ids && IsFresh(s.early[k].0, now) && JudgeEarly(s, k, now).Hold? :: s.early[k]
  }

  function AbsorbSets(s: Keys, arrived: set<SenderAt>, still: EarlyKeys, now: Time): Keys
    requires forall k :: k in arrived ==> k in s.early && JudgeEarly(s, k, now).Store?
  {
    s.(received := ReceivedWith(s, arrived, now),
       recvKeys := CachedWithout(s.recvKeys, arrived),
       early := still,
       generation := s.generation + |arrived|)
  }

  /** The early keys `ids` judged again, all at once: some are stored, some still held, and the
      rest are gone. */
  function Absorb(s: Keys, ids: set<SenderAt>, now: Time): Keys {
    AbsorbSets(s, Arrived(s, ids, now), StillEarly(s, ids, now), now)
  }

  function TakeEarly(s: Keys, now: Time): Keys {
    Absorb(s, s.early.Keys, now)
  }

  // ---- Room states ---------------------------------------------------------------------

  /** The latest room state seen while elsewhere, in case a placement there follows. */
  function StashState(s: Keys, room: RoomId, epoch: Epoch, peers: seq<Peer>): Keys {
    if s.stashed.Some? && s.stashed.value.room == room && epoch <= s.stashed.value.epoch then s
    else s.(stashed := Some(Stash(room, epoch, peers)))
  }

  function Listed(unwrappable: map<UserId, PublicKey>, peers: seq<Peer>): map<UserId, PublicKey> {
    map u | u in unwrappable && u in Users(peers) :: unwrappable[u]
  }

  /** The peers HPKE refused that are still listed; an invalid state is not looked at. */
  function StillUnwrappable(s: Keys, peers: seq<Peer>): map<UserId, PublicKey> {
    if IsInvalid(s, peers) then s.unwrappable else Listed(s.unwrappable, peers)
  }

  function TrustedNow(s: Keys, room: RoomId, peers: seq<Peer>, unix: nat): KeyPeers {
    if IsInvalid(s, peers) then map[] else Trusted(s.(unwrappable := Listed(s.unwrappable, peers)), room, peers, unix)
  }

  /** Takes in who is in the room, before our secret is renewed. */
  function TrustState(s: Keys, room: RoomId, peers: seq<Peer>, now: Time, unix: nat): Keys {
    var trusted := TrustedNow(s, room, peers, unix);
    s.(unwrappable := StillUnwrappable(s, peers),
       roomPeers := peers,
       received := RetireDeparted(s.received, Departed(s.peers, trusted), now),
       peers := trusted,
       owners := Owners(trusted))
  }

  predicate NeedsNewSecret(s: Keys, epoch: Epoch) {
    epoch != s.epoch || s.mySecret.None? || PeerSet(s.peers) != s.wrappedTo
  }

  function Rekey(s: Keys, room: RoomId, epoch: Epoch, now: Time): (Keys, Option<Publish>) {
    WrapForNewPeers(if NeedsNewSecret(s, epoch) then StartEpoch(s, epoch, now) else s, room)
  }

  function PeersChanged(s: Keys, room: RoomId, epoch: Epoch, peers: seq<Peer>, now: Time, unix: nat): (Keys, Option<Publish>) {
    if s.room != Some(room) then (StashState(s, room, epoch, peers), None)
    else if epoch < s.epoch then (s, None)
    else
      var (rekeyed, request) := Rekey(TrustState(s, room, peers, now, unix), room, epoch, now);
      var settled := TakeEarly(rekeyed, now);
      (settled.(generation := settled.generation + 1), request)
  }

  function ReapplyPeers(s: Keys, now: Time, unix: nat): (Keys, Option<Publish>) {
    if s.room.None? then (s, None)
    else PeersChanged(s, s.room.value, s.epoch, s.roomPeers, now, unix)
  }

  /** Leaves behind everything that belongs to the room we were in. */
  function EnterRoom(s: Keys, room: Option<RoomId>): Keys {
    s.(received := map[], recvKeys := map[], peers := map[], owners := map[], roomPeers := [], unwrappable := map[],
       epoch := 0,
       floor := if room.Some? && (s.me, room.value) in s.floors then Some(s.floors[(s.me, room.value)]) else None)
  }

  function Place(s: Keys, room: Option<RoomId>, tracks: Option<Tracks>): Keys {
    (if room != s.room then EnterRoom(s, room) else s).(
      room := room, myTracks := tracks, mySecret := None, sendKeys := map[], wrappedTo := {})
  }

  function Requests(first: Option<Publish>): seq<Publish> {
    if first.Some? then [first.value] else []
  }

  /** Takes the stashed room state, and applies it if it is of `room` and newer than `epoch`. */
  function CatchUp(s: Keys, room: RoomId, epoch: Epoch, now: Time, unix: nat): (Keys, Option<Publish>) {
    var caught := s.(stashed := None);
    if s.stashed.Some? && s.stashed.value.room == room && s.stashed.value.epoch > epoch
    then PeersChanged(caught, room, s.stashed.value.epoch, s.stashed.value.peers, now, unix)
    else (caught, None)
  }

  /** Applies a placement, and then the room state stashed for it if that is newer. */
  function ApplyPlacement(s: Keys, room: Option<RoomId>, epoch: Epoch, tracks: Option<Tracks>, peers: seq<Peer>,
                          now: Time, unix: nat): (Keys, seq<Publish>) {
    if room.Some? && room == s.room && epoch < s.epoch then (s, [])
    else
      var placed := Place(s, room, tracks);
      if room.None? then (placed.(stashed := None), [])
      else
        var (entered, first) := PeersChanged(placed, room.value, epoch, peers, now, unix);
        var (caughtUp, second) := CatchUp(entered, room.value, epoch, now, unix);
        (caughtUp, Requests(first) + Requests(second))
  }

  function ReplaceEncryption(s: Keys, encryption: PublicKey, now: Time): Keys {
    s.(encryption := encryption, retiredEncryption := Some((s.encryption, now + RETIRED_ENCRYPTION_KEPT)))
  }

  // ---- Reading keys --------------------------------------------------------------------

  function SendKey(s: Keys, id: MediaId): Option<(Epoch, TrackKey)> {
    if id in s.sendKeys then Some((s.epoch, s.sendKeys[id])) else None
  }

  predicate CacheHit(s: Keys, id: MediaId, epoch: Epoch) {
    id in s.owners && (id, epoch) in s.recvKeys && s.recvKeys[(id, epoch)].0 == s.owners[id]
  }

  /** The key to receive `id` at `epoch` with, cached for whoever owns `id` now. */
  function RecvKey(s: Keys, id: MediaId, epoch: Epoch): (Keys, Option<TrackKey>) {
    if BelowFloor(s, epoch) || id !in s.owners then (s, None)
    else if CacheHit(s, id, epoch) then (s, Some(s.recvKeys[(id, epoch)].1))
    else if (s.owners[id], epoch) !in s.received then (s, None)
    else
      var key := Derived(s.received[(s.owners[id], epoch)].secret, id);
      (s.(recvKeys := s.recvKeys[(id, epoch) := (s.owners[id], key)]), Some(key))
  }

  function Kept(received: ReceivedKeys, now: Time): ReceivedKeys {
    map k | k in received && (received[k].retireAt.None? || now < received[k].retireAt.value) :: received[k]
  }

  function CachedFor(cached: CachedKeys, received: ReceivedKeys): CachedKeys {
    map k | k in cached && (cached[k].0, k.1) in received :: cached[k]
  }

  function FreshEarly(early: EarlyKeys, now: Time): EarlyKeys {
    map k | k in early && IsFresh(early[k].0, now) :: early[k]
  }

  /** What is left once everything past its time is gone. */
  function Tick(s: Keys, now: Time): Keys {
    s.(retiredEncryption := if s.retiredEncryption.Some? && s.retiredEncryption.value.1 <= now then None else s.retiredEncryption,
       received := Kept(s.received, now),
       recvKeys := CachedFor(s.recvKeys, Kept(s.received, now)),
       early := FreshEarly(s.early, now))
  }
}
