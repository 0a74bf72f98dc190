/** No sender key is lost: what every step of the room and its clients keeps. */
module NetSafety {
  import opened Collections
  import opened KeyModel
  import opened KeyInvariants
  import opened KeyTheorems
  import opened KeyRuns
  import opened NetModel

  // ---- What is known of one client -----------------------------------------------------

  /** Every listed peer presents their account's keys. */
  ghost predicate Fixed(w: World, peers: seq<Peer>) {
    forall p :: p in peers ==>
      p.user in w.accounts && p.identityKey == w.accounts[p.user].identityKey && p.encryptionKey == w.accounts[p.user].encryptionKey
  }

  /** A room state told to `u` under `epoch`, when the room is at epoch `at`. One of that epoch
      lists just the members of now, and `u` is one of them. */
  ghost predicate ListOk(w: World, at: Epoch, members: Members, u: UserId, epoch: Epoch, peers: seq<Peer>) {
    Fixed(w, peers) && 0 <= epoch <= at && (epoch == at ==> u in members && Describes(w, peers, members))
  }

  ghost predicate FloorBelow(k: Keys, room: RoomId, epoch: Epoch) {
    (k.me, room) in k.floors ==> k.floors[(k.me, room)] < epoch
  }

  ghost predicate IsPlaced(w: World, at: Epoch, k: Keys) {
    && (k.room.Some? ==> k.room.value == w.room && HasOwnFloor(k, w.room))
    && (k.room.None? ==> k.floor.None?)
    && 0 <= k.epoch <= at
    && (k.floor.Some? ==> k.floor.value <= at)
    && FloorBelow(k, w.room, at + 1)
  }

  /** In a room, the floor to come is the one we entered above or, once we took part in a later
      epoch, that epoch. */
  ghost predicate HasOwnFloor(k: Keys, room: RoomId) {
    && (0 < k.epoch ==> (k.me, room) in k.floors && k.epoch <= k.floors[(k.me, room)])
    && (k.floor.Some? ==> (k.me, room) in k.floors && k.floor.value <= k.floors[(k.me, room)])
    && ((k.me, room) in k.floors ==> k.floors[(k.me, room)] == k.epoch || k.floor == Some(k.floors[(k.me, room)]))
  }

  /** A client that took part in the room at epoch `at`, and left it since: it takes no key of
      that epoch any more, for fear of a replay. */
  ghost predicate IsDeaf(w: World, at: Epoch, k: Keys) {
    if k.room.Some? then k.floor.Some? && at <= k.floor.value else !FloorBelow(k, w.room, at)
  }

  ghost predicate PeersOk(w: World, at: Epoch, members: Members, k: Keys) {
    forall v :: v in k.peers ==>
      v in w.accounts && v != k.me && k.peers[v].encryptionKey == KeyOf(w, v) && (k.epoch == at ==> v in members)
  }

  ghost predicate EarlyAreFresh(w: World, early: EarlyKeys) {
    forall x :: x in early ==> early[x].0 == w.now
  }

  ghost predicate IsSelf(w: World, u: UserId, k: Keys) {
    k.me == u && k.server == w.server && k.weak == {} && k.unwrappable == map[] && u in w.accounts && k.encryption == KeyOf(w, u)
  }

  ghost predicate StatesOk(w: World, at: Epoch, members: Members, k: Keys) {
    && (k.room.Some? ==> ListOk(w, at, members, k.me, k.epoch, k.roomPeers))
    && (k.stashed.Some? ==>
          k.stashed.value.room == w.room && ListOk(w, at, members, k.me, k.stashed.value.epoch, k.stashed.value.peers))
  }

  ghost predicate KeysOk(w: World, at: Epoch, members: Members, u: UserId, k: Keys) {
    && Inv(k, w.now)
    && IsSelf(w, u, k)
    && IsPlaced(w, at, k)
    && EarlyAreFresh(w, k.early)
    && PeersOk(w, at, members, k)
    && StatesOk(w, at, members, k)
  }

  ghost predicate MessageOk(w: World, at: Epoch, members: Members, u: UserId, op: Op) {
    match op
    case RoomState(room, epoch, peers) => room == w.room && ListOk(w, at, members, u, epoch, peers)
    case Shown(_, _) => true
    case KeyFrom(_, _, _) => true
    case _ => false
  }

  ghost predicate AnswerOk(w: World, at: Epoch, members: Members, u: UserId, op: Op) {
    && op.Placement?
    && (op.to.None? ==> u !in members)
    && (op.to.Some? ==>
          op.to.value == w.room && 0 < op.epoch && ListOk(w, at, members, u, op.epoch, op.peers))
  }

  ghost predicate RequestOk(at: Epoch, members: Members, u: UserId, p: Publish) {
    p.epoch <= at && (p.epoch == at ==> u in members && p.wrapped.Keys <= members.Keys - {u})
  }

  ghost predicate RequestsOk(at: Epoch, members: Members, u: UserId, requests: seq<Publish>) {
    forall i :: 0 <= i < |requests| ==> RequestOk(at, members, u, requests[i])
  }

  // ---- What a room state does to a client ----------------------------------------------

  /** Room states change nothing else, and with nobody refused they trust all they can. */
  lemma StateTouches(s: Keys, room: RoomId, epoch: Epoch, peers: seq<Peer>, now: Time, unix: nat)
    requires Accepts(s, room, epoch) && s.weak == {} && s.unwrappable == map[]
    ensures var t := PeersChanged(s, room, epoch, peers, now, unix).0;
      && t == s.(roomPeers := peers, peers := TrustedNow(s, room, peers, unix), owners := t.owners,
                 epoch := epoch, epochSince := t.epochSince, floors := t.floors,
                 mySecret := t.mySecret, sendKeys := t.sendKeys, wrappedTo := t.wrappedTo, serial := t.serial,
                 received := t.received, recvKeys := t.recvKeys, early := t.early, generation := t.generation)
      && t.floors == if epoch == s.epoch then s.floors else Raise(s.floors, s.me, room, epoch)
  {
    hide TrustState, Rekey, TakeEarly, TrustedNow, PeerSet, NeedsNewSecret;
    var trusting := TrustState(s, room, peers, now, unix);
    TrustStands(s, room, peers, now, unix);
    TrustRefusesNobody(s, room, peers, now, unix);
    RekeyTouches(trusting, room, epoch, now);
    EarlyTouches(Rekey(trusting, room, epoch, now).0, now);
  }

  lemma RekeyTouches(s: Keys, room: RoomId, epoch: Epoch, now: Time)
    requires s.weak == {} && s.unwrappable == map[]
    ensures var t := Rekey(s, room, epoch, now).0;
      && t == s.(owners := t.owners, epoch := epoch, epochSince := t.epochSince, floors := t.floors,
                 mySecret := t.mySecret, sendKeys := t.sendKeys, wrappedTo := t.wrappedTo, serial := t.serial, received := t.received)
      && t.floors == if epoch == s.epoch || s.room.None? then s.floors else Raise(s.floors, s.me, s.room.value, epoch)
  {
    hide StartEpoch, WrapForNewPeers, PeerSet;
    var ready := if NeedsNewSecret(s, epoch) then StartEpoch(s, epoch, now) else s;
    StartTouches(s, epoch, now);
    StartRaises(s, epoch, now);
    WrapTouches(ready, room);
    WrapRefusesNobody(ready, room);
  }

  lemma StartRaises(s: Keys, epoch: Epoch, now: Time)
    ensures StartEpoch(s, epoch, now).floors ==
      if epoch == s.epoch || s.room.None? then s.floors else Raise(s.floors, s.me, s.room.value, epoch)
  {
    hide RetireBefore, Raise, DeriveAll, MyTrackIds;
  }

  lemma TrustRefusesNobody(s: Keys, room: RoomId, peers: seq<Peer>, now: Time, unix: nat)
    requires s.unwrappable == map[]
    ensures var t := TrustState(s, room, peers, now, unix); t.unwrappable == map[] && t.peers == TrustedNow(s, room, peers, unix)
  {
    hide IsInvalid, TrustedNow, Owners, Departed, RetireDeparted;
    Empty(Listed(map[], peers));
  }

  lemma WrapRefusesNobody(s: Keys, room: RoomId)
    requires s.weak == {} && s.unwrappable == map[]
    ensures var t := WrapForNewPeers(s, room).0; t.unwrappable == map[] && t.peers == s.peers
  {
    hide WrapAll, GivenTo, OwnersLeft, RefusedKeys;
    forall u ensures u !in Refused(s) {
    }
    SameSet(Refused(s), {});
    WithNothing(s.peers, Refused(s));
    NobodyRefused(s.peers);
  }

  lemma NobodyRefused(peers: KeyPeers)
    ensures RefusedKeys(peers, {}) == map[]
  {
    Empty(RefusedKeys(peers, {}));
  }

  // ---- Room states keep what is known --------------------------------------------------

  lemma TrustedAreOk(w: World, at: Epoch, members: Members, u: UserId, s: Keys, epoch: Epoch, peers: seq<Peer>)
    requires s.me == u && ListOk(w, at, members, u, epoch, peers)
    ensures forall v :: v in TrustedNow(s, w.room, peers, w.unix) ==>
      v in w.accounts && v != u && TrustedNow(s, w.room, peers, w.unix)[v].encryptionKey == KeyOf(w, v) && (epoch == at ==> v in members)
  {
    var t := s.(unwrappable := Listed(s.unwrappable, peers));
    forall v | v in TrustedNow(s, w.room, peers, w.unix)
      ensures v in w.accounts && v != u && TrustedNow(s, w.room, peers, w.unix)[v].encryptionKey == KeyOf(w, v) && (epoch == at ==> v in members)
    {
      TrustedAreListed(t, w.room, peers, w.unix, v);
      var p :| p in peers && p.user == v && IsTrusted(t, w.room, p, w.unix) && Trusted(t, w.room, peers, w.unix)[v] == KeysOf(p);
    }
  }

  lemma FewerEarly(s: Keys, room: RoomId, epoch: Epoch, peers: seq<Peer>, now: Time, unix: nat)
    ensures var t := PeersChanged(s, room, epoch, peers, now, unix).0;
      forall x :: x in t.early ==> x in s.early && t.early[x] == s.early[x]
  {
    hide TrustState, Rekey, Judge, RefusesSome, ReceivedWith, CachedWithout;
    if Accepts(s, room, epoch) {
      var trusting := TrustState(s, room, peers, now, unix);
      TrustStands(s, room, peers, now, unix);
      RekeyRefuses(trusting, room, epoch, now);
    }
  }

  lemma StateOk(w: World, at: Epoch, members: Members, u: UserId, s: Keys, epoch: Epoch, peers: seq<Peer>)
    requires KeysOk(w, at, members, u, s) && ListOk(w, at, members, u, epoch, peers)
    ensures KeysOk(w, at, members, u, PeersChanged(s, w.room, epoch, peers, w.now, w.unix).0)
  {
    hide Core, HasSecret, EarlyOnesWait, ListOk, TrustState, Rekey, TakeEarly, PeersOk;
    var t := PeersChanged(s, w.room, epoch, peers, w.now, w.unix).0;
    PeersChangedKeeps(s, w.room, epoch, peers, w.now, w.now, w.unix);
    if Accepts(s, w.room, epoch) {
      StateTouches(s, w.room, epoch, peers, w.now, w.unix);
      FewerEarly(s, w.room, epoch, peers, w.now, w.unix);
      AcceptedOk(w, at, members, u, s, epoch, peers, t);
    } else {
      StashedOk(w, at, members, u, s, epoch, peers, t);
    }
  }

  lemma AcceptedOk(w: World, at: Epoch, members: Members, u: UserId, s: Keys, epoch: Epoch, peers: seq<Peer>, t: Keys)
    requires KeysOk(w, at, members, u, s) && ListOk(w, at, members, u, epoch, peers) && Accepts(s, w.room, epoch)
    requires t == s.(roomPeers := peers, peers := TrustedNow(s, w.room, peers, w.unix), owners := t.owners,
                     epoch := epoch, epochSince := t.epochSince, floors := t.floors,
                     mySecret := t.mySecret, sendKeys := t.sendKeys, wrappedTo := t.wrappedTo, serial := t.serial,
                     received := t.received, recvKeys := t.recvKeys, early := t.early, generation := t.generation)
    requires t.floors == if epoch == s.epoch then s.floors else Raise(s.floors, u, w.room, epoch)
    requires forall x :: x in t.early ==> x in s.early && t.early[x] == s.early[x]
    requires Inv(t, w.now)
    ensures KeysOk(w, at, members, u, t)
  {
    hide Inv, Raise, TrustedNow;
    TrustedAreOk(w, at, members, u, s, epoch, peers);
    RaiseStaysBelow(s.floors, u, w.room, epoch, at);
    RaiseOwns(s, w.room, epoch);
    hide Describes, Fixed;
    assert KeysOk(w, at, members, u, t);
  }

  lemma StashedOk(w: World, at: Epoch, members: Members, u: UserId, s: Keys, epoch: Epoch, peers: seq<Peer>, t: Keys)
    requires KeysOk(w, at, members, u, s) && ListOk(w, at, members, u, epoch, peers)
    requires t == s || t == s.(stashed := Some(Stash(w.room, epoch, peers)))
    requires Inv(t, w.now)
    ensures KeysOk(w, at, members, u, t)
  {
    hide Inv, ListOk;
    assert KeysOk(w, at, members, u, t);
  }

  lemma RaiseStaysBelow(floors: Floors, u: UserId, room: RoomId, epoch: Epoch, at: Epoch)
    requires epoch <= at && ((u, room) in floors ==> floors[(u, room)] <= at)
    ensures (u, room) in Raise(floors, u, room, epoch) && Raise(floors, u, room, epoch)[(u, room)] <= at
  {
  }

  lemma RaiseOwns(s: Keys, room: RoomId, epoch: Epoch)
    requires HasOwnFloor(s, room) && 0 <= s.epoch <= epoch
    ensures HasOwnFloor(s.(epoch := epoch, floors := if epoch == s.epoch then s.floors else Raise(s.floors, s.me, room, epoch)), room)
  {
  }

  lemma StateRequestOk(w: World, at: Epoch, members: Members, u: UserId, s: Keys, epoch: Epoch, peers: seq<Peer>)
    requires KeysOk(w, at, members, u, s) && ListOk(w, at, members, u, epoch, peers)
    ensures RequestsOk(at, members, u, Requests(PeersChanged(s, w.room, epoch, peers, w.now, w.unix).1))
  {
    hide Core, HasSecret, EarlyOnesWait, PeersChanged, TrustState, StatesOk;
    StateOk(w, at, members, u, s, epoch, peers);
    if Accepts(s, w.room, epoch) {
      RoomStateRekeys(s, w.room, epoch, peers, w.now, w.now, w.unix);
    } else {
      RefusedStates(s, w.room, epoch, peers, w.now, w.unix);
    }
  }

  lemma RefusedStates(s: Keys, room: RoomId, epoch: Epoch, peers: seq<Peer>, now: Time, unix: nat)
    requires !Accepts(s, room, epoch)
    ensures var (t, request) := PeersChanged(s, room, epoch, peers, now, unix);
      request == None && t == s.(stashed := t.stashed)
  {
    hide TrustState, Rekey, TakeEarly;
  }

  // ---- What a client sends -------------------------------------------------------------

  function WrapOf(w: World, a: UserId, b: UserId, epoch: Epoch, secret: Secret): Blob
    requires a in w.accounts && b in w.accounts
  {
    Sealed(secret, Context(w.server, w.room, epoch, a, b), KeyOf(w, a), KeyOf(w, b))
  }

  /** A client in the room at its epoch of now, with a secret. */
  ghost predicate IsCurrent(w: World, at: Epoch, k: Keys) {
    k.room == Some(w.room) && k.epoch == at && k.mySecret.Some?
  }

  ghost predicate Gave(w: World, k: Keys, b: UserId)
    requires b in w.accounts
  {
    (b, KeyOf(w, b)) in k.wrappedTo
  }

  /** The last wrap to `b` under `epoch` among some requests. */
  ghost function LastOut(requests: seq<Publish>, b: UserId, epoch: Epoch): Option<Blob> {
    if requests == [] then None else
    var last := requests[|requests| - 1];
    if last.epoch == epoch && b in last.wrapped then Some(last.wrapped[b])
    else LastOut(requests[..|requests| - 1], b, epoch)
  }

  function Newer(later: Option<Blob>, earlier: Option<Blob>): Option<Blob> {
    if later.Some? then later else earlier
  }

  lemma {:induction false} LastOutOf(first: seq<Publish>, second: seq<Publish>, b: UserId, epoch: Epoch)
    ensures LastOut(first + second, b, epoch) == Newer(LastOut(second, b, epoch), LastOut(first, b, epoch))
    decreases |second|
  {
    if second == [] {
      assert first + second == first;
    } else {
      var shorter := second[..|second| - 1];
      assert (first + second)[..|first + second| - 1] == first + shorter;
      LastOutOf(first, shorter, b, epoch);
    }
  }

  /** Whoever holds a secret of ours for the room's epoch after a step was sent it by the step,
      or held it before. */
  ghost predicate Sends(w: World, at: Epoch, u: UserId, s: Keys, t: Keys, requests: seq<Publish>)
    requires u in w.accounts
  {
    forall b :: b in w.accounts && IsCurrent(w, at, t) && Gave(w, t, b) ==> SendsTo(w, at, u, s, t, requests, b)
  }

  ghost predicate SendsTo(w: World, at: Epoch, u: UserId, s: Keys, t: Keys, requests: seq<Publish>, b: UserId)
    requires u in w.accounts && b in w.accounts && IsCurrent(w, at, t)
  {
    var sent := LastOut(requests, b, at);
    && (sent.Some? ==> sent.value == WrapOf(w, u, b, at, t.mySecret.value))
    && (sent.None? ==> IsCurrent(w, at, s) && s.mySecret == t.mySecret && Gave(w, s, b))
  }

  lemma SendsTwice(w: World, at: Epoch, u: UserId, s: Keys, t: Keys, v: Keys, first: seq<Publish>, second: seq<Publish>)
    requires u in w.accounts && Sends(w, at, u, s, t, first) && Sends(w, at, u, t, v, second)
    ensures Sends(w, at, u, s, v, first + second)
  {
    forall b | b in w.accounts && IsCurrent(w, at, v) && Gave(w, v, b) ensures SendsTo(w, at, u, s, v, first + second, b) {
      LastOutOf(first, second, b, at);
      assert SendsTo(w, at, u, t, v, second, b);
      if LastOut(second, b, at).None? {
        assert SendsTo(w, at, u, s, t, first, b);
      }
    }
  }

  lemma SendsNothing(w: World, at: Epoch, u: UserId, s: Keys, t: Keys)
    requires u in w.accounts
    requires t.mySecret.None? || (t.room == s.room && t.epoch == s.epoch && t.mySecret == s.mySecret && t.wrappedTo == s.wrappedTo)
    ensures Sends(w, at, u, s, t, [])
  {
  }

  lemma PublishSends(w: World, at: Epoch, u: UserId, s: Keys, t: Keys)
    requires IsSelf(w, u, t) && t.mySecret.Some? && t.wrappedTo == PeerSet(t.peers)
    requires forall v :: v in t.peers ==> v in w.accounts && t.peers[v].encryptionKey == KeyOf(w, v)
    ensures Sends(w, at, u, s, t, Requests(if t.peers == map[] then None else Some(PublishToAll(t, w.room))))
  {
    var requests := Requests(if t.peers == map[] then None else Some(PublishToAll(t, w.room)));
    forall b | b in w.accounts && IsCurrent(w, at, t) && Gave(w, t, b) ensures SendsTo(w, at, u, s, t, requests, b) {
      PeerSetHas(t.peers, b, KeyOf(w, b));
      assert b in t.peers;
      var p := PublishToAll(t, w.room);
      assert requests == [p] && b in p.wrapped;
      assert p.wrapped[b] == SealFor(t, w.room, t.mySecret.value, b);
      assert requests[|requests| - 1] == p;
    }
  }

  lemma StateSends(w: World, at: Epoch, members: Members, u: UserId, s: Keys, epoch: Epoch, peers: seq<Peer>)
    requires KeysOk(w, at, members, u, s) && ListOk(w, at, members, u, epoch, peers) && u in w.accounts
    ensures var (t, request) := PeersChanged(s, w.room, epoch, peers, w.now, w.unix);
      Sends(w, at, u, s, t, Requests(request))
  {
    hide Core, EarlyOnesWait, HasSecret, PeersChanged, StatesOk, TrustedNow, StillUnwrappable, PeerSet, Sends, Raise, ListOk;
    StateOk(w, at, members, u, s, epoch, peers);
    var (t, request) := PeersChanged(s, w.room, epoch, peers, w.now, w.unix);
    if Accepts(s, w.room, epoch) {
      RoomStateRekeys(s, w.room, epoch, peers, w.now, w.now, w.unix);
      StateTouches(s, w.room, epoch, peers, w.now, w.unix);
      TrustStands(s, w.room, peers, w.now, w.unix);
      TrustRefusesNobody(s, w.room, peers, w.now, w.unix);
      var kept := epoch == s.epoch && s.mySecret.Some? && PeerSet(t.peers) == s.wrappedTo;
      if kept {
        SendsNothing(w, at, u, s, t);
      } else {
        PublishSends(w, at, u, s, t);
      }
    } else {
      RefusedStates(s, w.room, epoch, peers, w.now, w.unix);
      SendsNothing(w, at, u, s, t);
    }
  }

  // ---- The other steps of a client -----------------------------------------------------

  lemma PresenceOk(w: World, at: Epoch, members: Members, u: UserId, k: Keys, user: UserId, where: Option<RoomId>)
    requires KeysOk(w, at, members, u, k)
    ensures KeysOk(w, at, members, u, SetPresence(k, user, where).0)
  {
    hide Inv, ListOk;
    PresenceKeeps(k, user, where, w.now);
    assert KeysOk(w, at, members, u, SetPresence(k, user, where).0);
  }

  lemma ShownOk(w: World, at: Epoch, members: Members, u: UserId, k: Keys, user: UserId, where: Option<RoomId>)
    requires KeysOk(w, at, members, u, k) && u in w.accounts
    ensures var (t, requests) := Apply(k, Step(Shown(user, where), w.now, w.unix));
      KeysOk(w, at, members, u, t) && RequestsOk(at, members, u, requests) && Sends(w, at, u, k, t, requests)
  {
    hide PeersChanged, ListOk, Sends, SetPresence, Core;
    var t := SetPresence(k, user, where).0;
    PresenceOk(w, at, members, u, k, user, where);
    PresenceTouches(k, user, where);
    SendsNothing(w, at, u, k, t);
    if t.room.Some? {
      StateOk(w, at, members, u, t, t.epoch, t.roomPeers);
      StateRequestOk(w, at, members, u, t, t.epoch, t.roomPeers);
      StateSends(w, at, members, u, t, t.epoch, t.roomPeers);
      var (v, request) := ReapplyPeers(t, w.now, w.unix);
      SendsTwice(w, at, u, k, t, v, [], Requests(request));
      assert [] + Requests(request) == Requests(request);
    }
  }

  lemma PresenceTouches(k: Keys, user: UserId, where: Option<RoomId>)
    ensures var t := SetPresence(k, user, where).0; t == k.(present := t.present)
  {
  }

  lemma SenderKeyTouches(k: Keys, sender: UserId, epoch: Epoch, blob: Blob, now: Time)
    ensures var t := SenderKey(k, sender, epoch, blob, now).0;
      && t == k.(received := t.received, recvKeys := t.recvKeys, early := t.early, generation := t.generation)
      && forall x :: x in t.early ==> t.early[x].0 == now || (x in k.early && t.early[x] == k.early[x])
  {
    hide SenderKey;
    SenderKeyIs(k, sender, epoch, blob, now);
    PutTouches(k.early, (sender, epoch), (now, blob));
  }

  lemma SenderKeyIs(k: Keys, sender: UserId, epoch: Epoch, blob: Blob, now: Time)
    ensures var t := SenderKey(k, sender, epoch, blob, now).0;
      && t == k.(received := t.received, recvKeys := t.recvKeys, early := t.early, generation := t.generation)
      && (t.early == k.early || t.early == k.early[(sender, epoch) := (now, blob)])
  {
    hide SenderKeyAt;
    JudgedIs(k, sender, epoch, blob, now);
  }

  lemma JudgedIs(k: Keys, sender: UserId, epoch: Epoch, blob: Blob, now: Time)
    ensures var t := SenderKeyAt(k, sender, epoch, blob, now, now).0;
      && t == k.(received := t.received, recvKeys := t.recvKeys, early := t.early, generation := t.generation)
      && (t.early == k.early || t.early == k.early[(sender, epoch) := (now, blob)])
  {
    hide Judge, StoreKey;
    var v := Judge(k, sender, epoch, blob, now);
    if v.Store? {
      StoreTouches(k, (sender, epoch), Received(v.secret, v.retireAt), now);
    }
  }

  lemma PutTouches(early: EarlyKeys, x: SenderAt, held: (Time, Blob))
    ensures forall y :: y in early[x := held] ==> early[x := held][y] == held || (y in early && early[x := held][y] == early[y])
  {
  }

  lemma StoreTouches(k: Keys, x: SenderAt, r: Received, now: Time)
    ensures var t := StoreKey(k, x, r, now);
      t == k.(received := t.received, recvKeys := t.recvKeys, generation := t.generation)
  {
    hide RetireEarlierOf, Forget;
  }

  lemma KeyFromOk(w: World, at: Epoch, members: Members, u: UserId, k: Keys, sender: UserId, epoch: Epoch, blob: Blob)
    requires KeysOk(w, at, members, u, k) && u in w.accounts
    ensures var t := SenderKey(k, sender, epoch, blob, w.now).0;
      KeysOk(w, at, members, u, t) && Sends(w, at, u, k, t, [])
  {
    hide Inv, ListOk, SenderKey;
    SenderKeyKeeps(k, sender, epoch, blob, w.now, w.now);
    SenderKeyTouches(k, sender, epoch, blob, w.now);
    var t := SenderKey(k, sender, epoch, blob, w.now).0;
    assert KeysOk(w, at, members, u, t);
    SendsNothing(w, at, u, k, t);
  }

  lemma EpochOk(w: World, at: Epoch, members: Members, u: UserId, epoch: Epoch, peers: seq<Peer>)
    requires ListOk(w, at, members, u, epoch, peers)
    ensures 0 <= epoch <= at
  {
  }

  // ---- Answers -------------------------------------------------------------------------

  lemma PlaceOk(w: World, at: Epoch, members: Members, u: UserId, k: Keys, room: Option<RoomId>, tracks: Option<Tracks>, epoch: Epoch)
    requires KeysOk(w, at, members, u, k) && u in w.accounts
    requires room.Some? ==> room.value == w.room && 0 < epoch <= at
    ensures KeysOk(w, at, members, u, Place(k, room, tracks)) && Sends(w, at, u, k, Place(k, room, tracks), [])
    ensures Place(k, room, tracks).mySecret == None
  {
    hide Inv;
    PlaceKeeps(k, room, tracks, w.now, w.now);
    assert KeysOk(w, at, members, u, Place(k, room, tracks));
    SendsNothing(w, at, u, k, Place(k, room, tracks));
  }

  /** Out to the lobby, nothing is sent and no secret of ours is left. */
  lemma LobbyOk(w: World, at: Epoch, members: Members, u: UserId, k: Keys)
    requires KeysOk(w, at, members, u, k) && u in w.accounts
    ensures var (t, requests) := Apply(k, Step(TO_LOBBY, w.now, w.unix));
      KeysOk(w, at, members, u, t) && requests == [] && Sends(w, at, u, k, t, []) && t.room.None?
  {
    hide KeysOk, Sends;
    var placed := Place(k, None, None);
    PlaceOk(w, at, members, u, k, None, None, 0);
    UnstashOk(w, at, members, u, placed);
    SendsNothing(w, at, u, k, placed.(stashed := None));
  }

  lemma UnstashOk(w: World, at: Epoch, members: Members, u: UserId, k: Keys)
    requires KeysOk(w, at, members, u, k) && u in w.accounts
    ensures KeysOk(w, at, members, u, k.(stashed := None)) && Sends(w, at, u, k, k.(stashed := None), [])
  {
    hide Inv, ListOk;
    assert Inv(k.(stashed := None), w.now) by {
      SameInv(k, k.(stashed := None), w.now);
    }
    assert KeysOk(w, at, members, u, k.(stashed := None));
    SendsNothing(w, at, u, k, k.(stashed := None));
  }

  lemma CatchUpOk(w: World, at: Epoch, members: Members, u: UserId, k: Keys, epoch: Epoch)
    requires KeysOk(w, at, members, u, k) && u in w.accounts
    ensures var (t, request) := CatchUp(k, w.room, epoch, w.now, w.unix);
      KeysOk(w, at, members, u, t) && RequestsOk(at, members, u, Requests(request)) && Sends(w, at, u, k, t, Requests(request))
  {
    hide PeersChanged, ListOk, Sends, Core;
    var caught := k.(stashed := None);
    UnstashOk(w, at, members, u, k);
    if k.stashed.Some? {
      var (e, peers) := (k.stashed.value.epoch, k.stashed.value.peers);
      StateOk(w, at, members, u, caught, e, peers);
      StateRequestOk(w, at, members, u, caught, e, peers);
      StateSends(w, at, members, u, caught, e, peers);
      var (t, request) := PeersChanged(caught, w.room, e, peers, w.now, w.unix);
      SendsTwice(w, at, u, k, caught, t, [], Requests(request));
      assert [] + Requests(request) == Requests(request);
    }
  }

  lemma AnswerKeepsOk(w: World, at: Epoch, members: Members, u: UserId, k: Keys, op: Op)
    requires KeysOk(w, at, members, u, k) && u in w.accounts && AnswerOk(w, at, members, u, op)
    ensures var (t, requests) := Apply(k, Step(op, w.now, w.unix));
      KeysOk(w, at, members, u, t) && RequestsOk(at, members, u, requests) && Sends(w, at, u, k, t, requests)
  {
    hide PeersChanged, KeysOk, ListOk, Sends, CatchUp, Place;
    var Placement(to, epoch, tracks, peers) := op;
    if to.Some? && to == k.room && epoch < k.epoch {
      SendsNothing(w, at, u, k, k);
    } else {
      var placed := Place(k, to, tracks);
      if to.Some? {
        EpochOk(w, at, members, u, epoch, peers);
      }
      PlaceOk(w, at, members, u, k, to, tracks, epoch);
      if to.None? {
        UnstashOk(w, at, members, u, placed);
        SendsNothing(w, at, u, k, placed.(stashed := None));
      } else {
        var (entered, first) := PeersChanged(placed, w.room, epoch, peers, w.now, w.unix);
        StateOk(w, at, members, u, placed, epoch, peers);
        StateRequestOk(w, at, members, u, placed, epoch, peers);
        StateSends(w, at, members, u, placed, epoch, peers);
        SendsTwice(w, at, u, k, placed, entered, [], Requests(first));
        assert [] + Requests(first) == Requests(first);
        var (caughtUp, second) := CatchUp(entered, w.room, epoch, w.now, w.unix);
        CatchUpOk(w, at, members, u, entered, epoch);
        SendsTwice(w, at, u, k, entered, caughtUp, Requests(first), Requests(second));
      }
    }
  }
}
