/**
 One room of the server and every client signed in to it. Events reach a client in order, and
 so do the keys it publishes reach the server; the answer to a request to enter or leave takes
 its own way, so events may overtake it. So does a kick: the part of the client that acts on it
 isn't the one that keeps the keys, and lags behind it by any number of events. Time stands
 still: no grace period ends, no key expires and none is renewed.
 */
module NetModel {
  import opened Collections
  import opened KeyModel
  import opened KeyRuns

  datatype Account = Account(identityKey: PublicKey, encryptionKey: SignedKey)

  /** What never changes while the room is watched. */
  datatype World = World(server: Server, room: RoomId, now: Time, unix: nat, accounts: map<UserId, Account>)

  /** Nobody cheats: each account's encryption key is in date and vouched for by its own
      identity. */
  ghost predicate Honest(w: World) {
    && |w.accounts| <= MAX_SIGNED_IN
    && forall u :: u in w.accounts ==>
         var key := w.accounts[u].encryptionKey;
         w.unix < key.notAfter && key.sig == By(w.accounts[u].identityKey, w.server, u, key.notAfter, key.key)
  }

  function KeyOf(w: World, u: UserId): PublicKey
    requires u in w.accounts
  {
    w.accounts[u].encryptionKey.key
  }

  /** A connection and the client behind it. `answer` is the server's answer to the client's
      last request to enter or leave, until the client applies it; `kicks` counts the kicks the
      client has yet to act on, and `refused` holds the secrets of requests the server refused. */
  datatype Link = Link(keys: Keys, inbox: seq<Op>, outbox: seq<Publish>, answer: Option<Op>, kicks: nat, refused: set<Secret>)

  type Members = map<UserId, Tracks>

  datatype Net = Net(epoch: Epoch, members: Members, nextId: MediaId, links: map<UserId, Link>)

  /** A membership has a microphone and one share. */
  function TracksFrom(first: MediaId): Tracks {
    Tracks(first, [ShareTracks(first + 1, first + 2)])
  }

  // ---- What the server says ------------------------------------------------------------

  function PeerOf(w: World, u: UserId, tracks: Tracks, share: int): Peer
    requires u in w.accounts
  {
    Peer(u, tracks, share, w.accounts[u].identityKey, w.accounts[u].encryptionKey)
  }

  /** A list of the members, in some order and however each shares their screen. */
  ghost predicate Describes(w: World, peers: seq<Peer>, members: Members) {
    && |peers| == |members|
    && Users(peers) == members.Keys
    && Distinct(UserList(peers))
    && forall p :: p in peers ==> p.user in members && p.user in w.accounts && p == PeerOf(w, p.user, members[p.user], p.share)
  }

  function Tell(links: map<UserId, Link>, whom: set<UserId>, message: Op): map<UserId, Link> {
    map u | u in links :: if u in whom then links[u].(inbox := links[u].inbox + [message]) else links[u]
  }

  function HandOut(links: map<UserId, Link>, sender: UserId, p: Publish): map<UserId, Link> {
    map u | u in links ::
      if u in p.wrapped then links[u].(inbox := links[u].inbox + [KeyFrom(sender, p.epoch, p.wrapped[u])]) else links[u]
  }

  function PresenceOf(w: World, members: Members): map<UserId, RoomId> {
    map u | u in members :: w.room
  }

  function ShownAt(w: World, members: Members, u: UserId): Option<RoomId> {
    if u in members then Some(w.room) else None
  }

  // ---- Steps ---------------------------------------------------------------------------

  datatype Move =
    | Enter(u: UserId, peers: seq<Peer>)      // the server moves someone in, and answers
    | Leave(u: UserId, peers: seq<Peer>)      // or out
    | Ask(u: UserId, peers: seq<Peer>)        // or finds them there already
    | Kick(u: UserId, peers: seq<Peer>, told: bool)  // moves them out unasked, and may say so
    | PutOut(u: UserId)                       // a client acts on the next kick
    | Refuse(u: UserId)                       // the server's rate limit refuses a client's next request
    | Refresh(peers: seq<Peer>)               // a share or a key's expiry changed
    | Announce(u: UserId)                     // a member's presence is told again
    | Reconnect(u: UserId, peers: seq<Peer>)  // a client lost its connection, and starts a new one
    | Accept(u: UserId)                       // the server handles a client's next request
    | Deliver(u: UserId)                      // a client handles its next event
    | Settle(u: UserId)                       // a client applies the server's answer

  function With(w: World, n: Net, u: UserId): Members {
    n.members[u := TracksFrom(n.nextId)]
  }

  predicate HasRoomForEarly(k: Keys, op: Op) {
    op.KeyFrom? ==> |k.early| < MAX_EARLY || (op.sender, op.epoch) in k.early
  }

  ghost predicate Enabled(w: World, n: Net, move: Move) {
    match move
    case Enter(u, peers) =>
      u in n.links && u !in n.members && n.links[u].answer.None? && |n.members| < MAX_ROOM_MEMBERS
      && Describes(w, peers, With(w, n, u))
    case Leave(u, peers) =>
      u in n.links && u in n.members && n.links[u].answer.None? && Describes(w, peers, n.members - {u})
    case Ask(u, peers) => u in n.links && n.links[u].answer.None? && Describes(w, peers, n.members)
    case Kick(u, peers, _) => u in n.links && u in n.members && Describes(w, peers, n.members - {u})
    case PutOut(u) => u in n.links && n.links[u].kicks > 0 && n.links[u].answer.None?
    case Refuse(u) => u in n.links && n.links[u].outbox != []
    case Refresh(peers) => Describes(w, peers, n.members)
    case Announce(u) => u in n.members
    case Reconnect(u, peers) => u in n.links && (u in n.members ==> Describes(w, peers, n.members - {u}))
    case Accept(u) => u in n.links && n.links[u].outbox != []
    case Deliver(u) => u in n.links && n.links[u].inbox != [] && HasRoomForEarly(n.links[u].keys, n.links[u].inbox[0])
    case Settle(u) => u in n.links && n.links[u].answer.Some?
  }

  function EnterRoomOf(w: World, n: Net, u: UserId, peers: seq<Peer>): Net
    requires u in n.links
  {
    var told := Tell(Tell(n.links, n.members.Keys, RoomState(w.room, n.epoch + 1, peers)), n.links.Keys, Shown(u, Some(w.room)));
    Net(n.epoch + 1, With(w, n, u), n.nextId + 3,
        told[u := told[u].(answer := Some(Placement(Some(w.room), n.epoch + 1, Some(TracksFrom(n.nextId)), peers)))])
  }

  /** Takes `u` out, tells who is left, and tells everyone where `u` is shown. */
  function TakeOut(w: World, n: Net, u: UserId, peers: seq<Peer>): Net {
    Net(n.epoch + 1, n.members - {u}, n.nextId,
        Tell(Tell(n.links, n.members.Keys - {u}, RoomState(w.room, n.epoch + 1, peers)), n.links.Keys, Shown(u, None)))
  }

  const TO_LOBBY: Op := Placement(None, 0, None, [])

  function LeaveRoomOf(w: World, n: Net, u: UserId, peers: seq<Peer>): Net
    requires u in n.links
  {
    var out := TakeOut(w, n, u, peers);
    out.(links := out.links[u := out.links[u].(answer := Some(TO_LOBBY))])
  }

  /** A kick, or the deletion of the room, moves someone out of it without being asked to. */
  function KickedOut(w: World, n: Net, u: UserId, peers: seq<Peer>, told: bool): Net
    requires u in n.links
  {
    var out := TakeOut(w, n, u, peers);
    if told then out.(links := out.links[u := out.links[u].(kicks := out.links[u].kicks + 1)]) else out
  }

  function AnswerAgain(w: World, n: Net, u: UserId, peers: seq<Peer>): Op {
    if u in n.members then Placement(Some(w.room), n.epoch, Some(n.members[u]), peers) else TO_LOBBY
  }

  /** A client that lost its connection starts over, with the floors and keys it had. */
  function Restart(w: World, k: Keys, members: Members): Link {
    Link(New(k.me, k.server, k.weak, k.encryption, k.floors, w.now, k.serial).(present := PresenceOf(w, members)), [], [], None, 0, {})
  }

  predicate Accepted(n: Net, u: UserId, p: Publish) {
    u in n.members && p.epoch == n.epoch && p.wrapped.Keys <= n.members.Keys - {u}
  }

  function AcceptNext(n: Net, u: UserId): Net
    requires u in n.links && n.links[u].outbox != []
  {
    var p := n.links[u].outbox[0];
    var sent := n.links[u := n.links[u].(outbox := n.links[u].outbox[1..])];
    n.(links := if Accepted(n, u, p) then HandOut(sent, u, p) else sent)
  }

  function SecretsOf(p: Publish): set<Secret> {
    set u | u in p.wrapped && p.wrapped[u].Sealed? :: p.wrapped[u].secret
  }

  /** The request is dropped. The client is told, and does nothing about it. */
  function RefuseNext(l: Link): Link
    requires l.outbox != []
  {
    l.(outbox := l.outbox[1..], refused := l.refused + SecretsOf(l.outbox[0]))
  }

  /** A client takes in an event or an answer, and sends what its keys ask for. */
  function Take(w: World, l: Link, op: Op): Link {
    var (keys, requests) := Apply(l.keys, Step(op, w.now, w.unix));
    l.(keys := keys, outbox := l.outbox + requests)
  }

  function DeliverNext(w: World, l: Link): Link
    requires l.inbox != []
  {
    Take(w, l, l.inbox[0]).(inbox := l.inbox[1..])
  }

  function SettleAnswer(w: World, l: Link): Link
    requires l.answer.Some?
  {
    Take(w, l, l.answer.value).(answer := None)
  }

  /** A kick puts a client out of the room only while it takes itself to be in it. */
  function ActOnKick(w: World, l: Link): Link
    requires l.kicks > 0
  {
    (if l.keys.room == Some(w.room) then Take(w, l, TO_LOBBY) else l).(kicks := l.kicks - 1)
  }

  function Restarted(w: World, n: Net, u: UserId, peers: seq<Peer>): Net
    requires u in n.links
  {
    var out := if u in n.members then TakeOut(w, n, u, peers) else n;
    out.(links := out.links[u := Restart(w, n.links[u].keys, out.members)])
  }

  ghost function Next(w: World, n: Net, move: Move): Net
    requires Enabled(w, n, move)
  {
    match move
    case Enter(u, peers) => EnterRoomOf(w, n, u, peers)
    case Leave(u, peers) => LeaveRoomOf(w, n, u, peers)
    case Ask(u, peers) => n.(links := n.links[u := n.links[u].(answer := Some(AnswerAgain(w, n, u, peers)))])
    case Kick(u, peers, told) => KickedOut(w, n, u, peers, told)
    case PutOut(u) => n.(links := n.links[u := ActOnKick(w, n.links[u])])
    case Refuse(u) => n.(links := n.links[u := RefuseNext(n.links[u])])
    case Refresh(peers) => n.(links := Tell(n.links, n.members.Keys, RoomState(w.room, n.epoch, peers)))
    case Announce(u) => n.(links := Tell(n.links, n.links.Keys, Shown(u, Some(w.room))))
    case Reconnect(u, peers) => Restarted(w, n, u, peers)
    case Accept(u) => AcceptNext(n, u)
    case Deliver(u) => n.(links := n.links[u := DeliverNext(w, n.links[u])])
    case Settle(u) => n.(links := n.links[u := SettleAnswer(w, n.links[u])])
  }
}
