/**
 The key manager itself: fields that change in place. Every method is proved to do what the
 function of that name in `KeyModel` says, so what is proved of those holds of it.
 */
module KeyManaging {
  import opened Collections
  import opened KeyModel
  import opened KeyInvariants
  import opened KeyLoops
  import opened FloorsFile

  class KeyManager {
    const me: UserId
    const server: Server
    const weak: set<PublicKey>
    const floors: EpochFloors
    var encryption: PublicKey
    var retiredEncryption: Option<(PublicKey, Time)>
    var present: map<UserId, RoomId>
    var roomPeers: seq<Peer>
    var room: Option<RoomId>
    var epoch: Epoch
    var epochSince: Time
    var floor: Option<Epoch>
    var myTracks: Option<Tracks>
    var peers: KeyPeers
    var owners: map<MediaId, UserId>
    var mySecret: Option<Secret>
    var wrappedTo: set<(UserId, PublicKey)>
    var unwrappable: map<UserId, PublicKey>
    var sendKeys: map<MediaId, TrackKey>
    var received: ReceivedKeys
    var recvKeys: CachedKeys
    var early: EarlyKeys
    var stashed: Option<Stash>
    var generation: nat
    var serial: nat
    /** What was checked last of each user: an identity key, an encryption key, and whether the one
        signed the other. */
    var checkedSignatures: Checked

    ghost function View(): Keys
      reads this, floors
    {
      Keys(me, server, weak, encryption, retiredEncryption, present, roomPeers, room, epoch, epochSince, floors.at, floor,
           myTracks, peers, owners, mySecret, wrappedTo, unwrappable, sendKeys, received, recvKeys, early, stashed,
           generation, serial)
    }

    ghost predicate Valid()
      reads this
    {
      |early| <= MAX_EARLY && ChecksHold(server, checkedSignatures)
    }

    constructor (me: UserId, server: Server, weak: set<PublicKey>, encryption: PublicKey, floors: EpochFloors, now: Time, serial: nat)
      ensures View() == New(me, server, weak, encryption, floors.at, now, serial)
      ensures Valid() && this.floors == floors
    {
      this.me, this.server, this.weak, this.floors, this.encryption := me, server, weak, floors, encryption;
      retiredEncryption, present, roomPeers, room, epoch, epochSince := None, map[], [], None, 0, now;
      floor, myTracks, peers, owners, mySecret, wrappedTo := None, None, map[], map[], None, {};
      unwrappable, sendKeys, received, recvKeys, early, stashed := map[], map[], map[], map[], map[], None;
      generation, this.serial, checkedSignatures := 0, serial, map[];
    }

    // ---- Presence ----------------------------------------------------------------------

    method SetPresence(user: UserId, where: Option<RoomId>) returns (changed: bool)
      requires Valid()
      modifies `present
      ensures (View(), changed) == KeyModel.SetPresence(old(View()), user, where)
    {
      var before := Presence(present, user);
      if where.Some? {
        if |present| >= MAX_SIGNED_IN && user !in present {
          return false;
        }
        present := present[user := where.value];
      } else {
        present := present - {user};
      }
      changed := user != me && room.Some? && (before == room) != (where == room);
    }

    method ReapplyPeers(now: Time, unix: nat) returns (request: Option<Publish>)
      requires Valid()
      modifies this, floors
      ensures (View(), request) == KeyModel.ReapplyPeers(old(View()), now, unix)
      ensures Valid()
    {
      if room.None? {
        return None;
      }
      request := PeersChanged(room.value, epoch, roomPeers, now, unix);
    }

    method ReplaceEncryption(renewed: PublicKey, now: Time)
      modifies `encryption, `retiredEncryption
      ensures View() == KeyModel.ReplaceEncryption(old(View()), renewed, now)
    {
      var retired := encryption;
      encryption := renewed;
      retiredEncryption := Some((retired, now + RETIRED_ENCRYPTION_KEPT));
    }

    // ---- Room states -------------------------------------------------------------------

    method ApplyPlacement(to: Option<RoomId>, at: Epoch, tracks: Option<Tracks>, listed: seq<Peer>, now: Time, unix: nat)
      returns (requests: seq<Publish>)
      requires Valid()
      modifies this, floors
      ensures (View(), requests) == KeyModel.ApplyPlacement(old(View()), to, at, tracks, listed, now, unix)
      ensures Valid()
    {
      hide KeyModel.PeersChanged, KeyModel.Place, KeyModel.CatchUp;
      if to.Some? && to == room && at < epoch {
        return [];
      }
      Place(to, tracks);
      if to.None? {
        stashed := None;
        return [];
      }
      var first := PeersChanged(to.value, at, listed, now, unix);
      var second := CatchUp(to.value, at, now, unix);
      requests := Requests(first) + Requests(second);
    }

    /** Moves to a room or the lobby, leaving behind what belongs to another room. */
    method Place(to: Option<RoomId>, tracks: Option<Tracks>)
      requires Valid()
      modifies `received, `recvKeys, `peers, `owners, `roomPeers, `unwrappable, `epoch, `floor,
        `room, `myTracks, `mySecret, `sendKeys, `wrappedTo
      ensures View() == KeyModel.Place(old(View()), to, tracks)
      ensures Valid()
    {
      hide EnterRoom;
      if to != room {
        LeaveBehind(to);
      }
      StandIn(to, tracks);
    }

    method StandIn(to: Option<RoomId>, tracks: Option<Tracks>)
      modifies `room, `myTracks, `mySecret, `sendKeys, `wrappedTo
      ensures View() == old(View()).(room := to, myTracks := tracks, mySecret := None, sendKeys := map[], wrappedTo := {})
    {
      SetOurs(to, tracks);
    }

    method SetOurs(to: Option<RoomId>, tracks: Option<Tracks>)
      modifies `room, `myTracks, `mySecret, `sendKeys, `wrappedTo
      ensures room == to && myTracks == tracks && mySecret == None && sendKeys == map[] && wrappedTo == {}
    {
      room, myTracks, mySecret, sendKeys, wrappedTo := to, tracks, None, map[], {};
    }

    method LeaveBehind(to: Option<RoomId>)
      modifies `received, `recvKeys, `peers, `owners, `roomPeers, `unwrappable, `epoch, `floor
      ensures View() == EnterRoom(old(View()), to)
    {
      SetTheirs(to);
    }

    method SetTheirs(to: Option<RoomId>)
      modifies `received, `recvKeys, `peers, `owners, `roomPeers, `unwrappable, `epoch, `floor
      ensures received == map[] && recvKeys == map[] && peers == map[] && owners == map[]
      ensures roomPeers == [] && unwrappable == map[] && epoch == 0
      ensures floor == if to.Some? && (me, to.value) in floors.at then Some(floors.at[(me, to.value)]) else None
    {
      var newest := None;
      if to.Some? {
        newest := floors.Get(me, to.value);
      }
      received, recvKeys, peers, owners, roomPeers, unwrappable, epoch, floor := map[], map[], map[], map[], [], map[], 0, newest;
    }

    /** Takes the stashed room state, and applies it if it is of this room and newer. */
    method CatchUp(where: RoomId, at: Epoch, now: Time, unix: nat) returns (request: Option<Publish>)
      requires Valid()
      modifies this, floors
      ensures (View(), request) == KeyModel.CatchUp(old(View()), where, at, now, unix)
      ensures Valid()
    {
      hide KeyModel.PeersChanged;
      var kept := stashed;
      stashed := None;
      request := None;
      assert View() == old(View()).(stashed := None);
      if kept.Some? && kept.value.room == where && kept.value.epoch > at {
        request := PeersChanged(where, kept.value.epoch, kept.value.peers, now, unix);
      }
    }

    method PeersChanged(where: RoomId, at: Epoch, listed: seq<Peer>, now: Time, unix: nat) returns (request: Option<Publish>)
      requires Valid()
      modifies this, floors
      ensures (View(), request) == KeyModel.PeersChanged(old(View()), where, at, listed, now, unix)
      ensures Valid()
    {
      hide KeyModel.Rekey, TrustState, KeyModel.TakeEarly, StashState;
      if room != Some(where) {
        KeepForLater(where, at, listed);
        return None;
      }
      if at < epoch {
        return None;
      }
      request := AcceptState(where, at, listed, now, unix);
      generation := generation + 1;
    }

    method AcceptState(where: RoomId, at: Epoch, listed: seq<Peer>, now: Time, unix: nat) returns (request: Option<Publish>)
      requires Valid()
      modifies this, floors
      ensures request == KeyModel.Rekey(TrustState(old(View()), where, listed, now, unix), where, at, now).1
      ensures View() == KeyModel.TakeEarly(KeyModel.Rekey(TrustState(old(View()), where, listed, now, unix), where, at, now).0, now)
      ensures Valid()
    {
      hide KeyModel.Rekey, StillUnwrappable, TrustedNow, Owners, Departed, RetireDeparted, KeyModel.TakeEarly;
      Trust(where, listed, now, unix);
      assert View() == TrustState(old(View()), where, listed, now, unix);
      request := Rekey(where, at, now);
      TakeEarly(now);
    }

    /** Replaces our secret where it has to be, and sends it to whoever lacks it. */
    method Rekey(where: RoomId, at: Epoch, now: Time) returns (request: Option<Publish>)
      requires Valid()
      modifies `received, `epoch, `epochSince, `serial, `sendKeys, `mySecret, `wrappedTo, `unwrappable, `peers, `owners, floors
      ensures (View(), request) == KeyModel.Rekey(old(View()), where, at, now)
    {
      hide KeyModel.StartEpoch, KeyModel.WrapForNewPeers, PeerSet;
      if at != epoch || mySecret.None? || PeerSet(peers) != wrappedTo {
        StartEpoch(at, now);
      }
      request := WrapForNewPeers(where);
    }

    method KeepForLater(where: RoomId, at: Epoch, listed: seq<Peer>)
      modifies `stashed
      ensures View() == StashState(old(View()), where, at, listed)
    {
      if stashed.None? || stashed.value.room != where || stashed.value.epoch < at {
        stashed := Some(Stash(where, at, listed));
      }
    }

    /** Takes in who is in the room. */
    method Trust(where: RoomId, listed: seq<Peer>, now: Time, unix: nat)
      requires Valid()
      modifies `unwrappable, `roomPeers, `received, `peers, `owners, `checkedSignatures
      ensures Valid()
      ensures unwrappable == StillUnwrappable(old(View()), listed) && roomPeers == listed
      ensures peers == TrustedNow(old(View()), where, listed, unix) && owners == Owners(peers)
      ensures received == RetireDeparted(old(received), Departed(old(peers), peers), now)
    {
      hide StillUnwrappable, TrustedNow, Owners, Departed, RetireDeparted, RetireAmong;
      var trusted := TrustedOrNobody(where, listed, unix);
      roomPeers := listed;
      var departed := Departed(peers, trusted);
      RetireReceived(now, (k: SenderAt) => k.0 in departed);
      RetiredAre(old(received), departed, now);
      peers := trusted;
      CollectOwners();
    }

    /** The peers of a room state to trust: nobody, if it is invalid. */
    method TrustedOrNobody(where: RoomId, listed: seq<Peer>, unix: nat) returns (trusted: KeyPeers)
      requires Valid()
      modifies `unwrappable, `checkedSignatures
      ensures Valid()
      ensures unwrappable == StillUnwrappable(old(View()), listed)
      ensures trusted == TrustedNow(old(View()), where, listed, unix)
    {
      hide KeyModel.ClashingTracks, Trusted, Listed;
      trusted := map[];
      var invalid := |listed| > MAX_ROOM_MEMBERS;
      if !invalid {
        invalid := ClashingTracks(listed);
      }
      if !invalid {
        trusted := TrustedPeers(where, listed, unix);
      }
    }

    /** The loop's answer is that of the plain definition over the whole list. */
    method ClashingTracks(listed: seq<Peer>) returns (clash: bool)
      ensures clash == KeyModel.ClashingTracks(View(), listed)
    {
      var others := Others(me, listed);
      var differ := AllDiffer(UserList(others));
      if !differ {
        return true;
      }
      var mine := if myTracks.Some? then TrackIds(myTracks.value) else [];
      differ := AllDiffer(mine + AllTrackIds(others));
      clash := !differ;
    }

    /** The listed peers to trust. Forgets keys HPKE refused, and signatures checked, of those no longer
        listed. */
    method TrustedPeers(where: RoomId, listed: seq<Peer>, unix: nat) returns (trusted: KeyPeers)
      requires Valid()
      modifies `unwrappable, `checkedSignatures
      ensures Valid()
      ensures unwrappable == Listed(old(unwrappable), listed)
      ensures trusted == Trusted(old(View()).(unwrappable := unwrappable), where, listed, unix)
    {
      hide ChecksHold;
      ForgetChecks(listed);
      unwrappable := Listed(unwrappable, listed);
      trusted := map[];
      var k := 0;
      while k < |listed|
        invariant 0 <= k <= |listed|
        invariant unwrappable == Listed(old(unwrappable), listed)
        invariant trusted == Trusted(View(), where, listed[..k], unix)
        invariant Valid()
      {
        var p := listed[k];
        TrustOneMore(View(), where, listed, k, unix);
        if p.user != me && Presence(present, p.user) == Some(where) {
          var signed := p.encryptionKey;
          var vouched := signed.notAfter > unix;
          if vouched {
            vouched := SignedByIdentity(p);
          }
          if vouched && !(p.user in unwrappable && unwrappable[p.user] == signed.key) {
            trusted := trusted[p.user := KeyPeer(p.identityKey, signed.key, p.tracks)];
          }
        }
        k := k + 1;
      }
      assert listed[..k] == listed;
    }

    method ForgetChecks(listed: seq<Peer>)
      requires Valid()
      modifies `checkedSignatures
      ensures Valid()
      ensures checkedSignatures.Keys == old(checkedSignatures.Keys) * Users(listed)
    {
      checkedSignatures := map u | u in checkedSignatures && u in Users(listed) :: checkedSignatures[u];
      SameSet(checkedSignatures.Keys, old(checkedSignatures.Keys) * Users(listed));
    }

    /** Whether the identity listed beside an encryption key signed it as the key of this user here. The
        pair checked last of a user is not checked again. */
    method SignedByIdentity(p: Peer) returns (holds: bool)
      requires Valid()
      modifies `checkedSignatures
      ensures Valid()
      ensures holds <==> p.encryptionKey.sig == By(p.identityKey, server, p.user, p.encryptionKey.notAfter, p.encryptionKey.key)
    {
      if p.user in checkedSignatures {
        var (identityKey, encryptionKey, held) := checkedSignatures[p.user];
        if (identityKey, encryptionKey) == (p.identityKey, p.encryptionKey) {
          return held;
        }
      }
      holds := KeyModel.SignedByIdentity(server, p);
      checkedSignatures := checkedSignatures[p.user := (p.identityKey, p.encryptionKey, holds)];
    }

    /** Every picked secret has a time to go afterwards; one that had one keeps it. */
    method RetireReceived(now: Time, which: SenderAt -> bool)
      modifies `received
      ensures received == RetireAmong(old(received), old(received).Keys, which, now)
    {
      var left := received.Keys;
      ghost var before := received;
      RetireNone(before, which, now);
      assert before.Keys - left == {};
      while left != {}
        invariant left <= before.Keys
        invariant received == RetireAmong(before, before.Keys - left, which, now)
        decreases |left|
      {
        ghost var some: SenderAt := Pick(left);
        assert some in left;
        var k :| k in left;
        RetireOneMore(before, before.Keys - left, k, which, now);
        if which(k) && received[k].retireAt.None? {
          received := received[k := received[k].(retireAt := Some(now + OLD_KEY_GRACE))];
        } else if which(k) {
          assert received[k := received[k]] == received;
        }
        assert before.Keys - left + {k} == before.Keys - (left - {k});
        left := left - {k};
      }
      assert before.Keys - left == before.Keys;
    }

    /** Notes who sends on each media id. */
    method CollectOwners()
      modifies `owners
      ensures owners == Owners(peers)
    {
      hide Owners;
      var left := peers.Keys;
      owners := map[];
      OwnersOfNone(peers);
      assert peers.Keys - left == {};
      while left != {}
        invariant left <= peers.Keys && forall v, u :: v in peers.Keys - left && u in left ==> v < u
        invariant owners == OwnersAmong(peers, peers.Keys - left)
        decreases |left|
      {
        var u := Min(left);
        OwnersNext(peers, peers.Keys - left, u);
        OwnAll(TrackIds(peers[u].tracks), u);
        assert peers.Keys - left + {u} == peers.Keys - (left - {u});
        left := left - {u};
      }
      assert peers.Keys - left == peers.Keys;
      OwnersOfAll(peers);
    }

    method OwnAll(ids: seq<MediaId>, u: UserId)
      modifies `owners
      ensures owners == Own(old(owners), ids, u)
    {
      var k := 0;
      OwnNone(owners, ids, u);
      while k < |ids|
        invariant 0 <= k <= |ids|
        invariant owners == Own(old(owners), ids[..k], u)
      {
        OwnNext(old(owners), ids, k, u);
        owners := owners[ids[k] := u];
        k := k + 1;
      }
      assert ids[..k] == ids;
    }

    // ---- Our secret --------------------------------------------------------------------

    method StartEpoch(at: Epoch, now: Time)
      modifies `received, `epoch, `epochSince, `serial, `sendKeys, `mySecret, `wrappedTo, floors
      ensures View() == KeyModel.StartEpoch(old(View()), at, now)
    {
      hide Raise, RetireAmong, RetireBefore, DeriveAll;
      if at != epoch {
        MoveTo(at, now);
      }
      MakeSecret();
    }

    method MoveTo(at: Epoch, now: Time)
      modifies `received, `epoch, `epochSince, floors
      ensures epoch == at && epochSince == now && received == RetireBefore(old(received), at, now)
      ensures floors.at == if room.Some? then Raise(old(floors.at), me, room.value, at) else old(floors.at)
    {
      hide Raise, RetireAmong, RetireBefore;
      RetireReceived(now, (k: SenderAt) => k.1 < at);
      RetiredBefore(old(received), at, now);
      epoch := at;
      epochSince := now;
      if room.Some? {
        floors.Raise(me, room.value, at);
      }
    }

    method MakeSecret()
      modifies `serial, `sendKeys, `mySecret, `wrappedTo
      ensures serial == old(serial) + 1 && mySecret == Some(Secret(me, old(serial))) && wrappedTo == {}
      ensures sendKeys == DeriveAll(mySecret.value, MyTrackIds(View()))
    {
      var secret := Secret(me, serial);
      serial := serial + 1;
      sendKeys := DeriveAll(secret, if myTracks.Some? then TrackIds(myTracks.value) else []);
      mySecret := Some(secret);
      wrappedTo := {};
    }

    /** Afterwards each peer left holds our secret or is sent it now. Peers HPKE refuses
        aren't peers any more. */
    method WrapForNewPeers(where: RoomId) returns (request: Option<Publish>)
      modifies `unwrappable, `peers, `owners, `wrappedTo
      ensures (View(), request) == KeyModel.WrapForNewPeers(old(View()), where)
    {
      hide Refused, WrapAll, GivenTo, RefusedKeys, OwnersLeft, StillPeers;
      if mySecret.None? {
        return None;
      }
      var wrapped, refused := WrapEach(where, mySecret.value);
      ghost var before := View();
      LeaveOut(refused);
      LeaveOutAll(before, refused);
      GivenAreStillPeers(before, where, mySecret.value);
      wrappedTo := wrappedTo + StillPeers(peers, wrapped.Keys);
      request := if wrapped == map[] then None else Some(Publish(epoch, wrapped));
    }

    method WrapEach(where: RoomId, secret: Secret) returns (wrapped: map<UserId, Blob>, refused: map<UserId, PublicKey>)
      ensures wrapped == WrapAll(View(), where, secret)
      ensures refused == RefusedKeys(peers, Refused(View())) && refused.Keys == Refused(View())
    {
      hide WrapAll, RefusedKeys, Refused, WrapAmong, RefusedAmong;
      wrapped, refused := map[], map[];
      var left := peers.Keys;
      WrapNone(View(), where, secret);
      assert peers.Keys - left == {};
      while left != {}
        invariant left <= peers.Keys
        invariant wrapped == WrapAmong(View(), where, secret, peers.Keys - left)
        invariant refused == RefusedAmong(View(), peers.Keys - left)
        decreases |left|
      {
        var user := Min(left);
        var key := peers[user].encryptionKey;
        WrapNext(View(), where, secret, peers.Keys - left, user);
        if (user, key) !in wrappedTo {
          if key in weak {
            refused := refused[user := key];
          } else {
            wrapped := wrapped[user := Sealed(secret, Context(server, where, epoch, me, user), encryption, key)];
          }
        }
        assert peers.Keys - left + {user} == peers.Keys - (left - {user});
        left := left - {user};
      }
      assert peers.Keys - left == peers.Keys;
      WrapEveryone(View(), where, secret);
    }

    method LeaveOut(refused: map<UserId, PublicKey>)
      modifies `unwrappable, `peers, `owners
      ensures View() == LeftOut(old(View()), refused, refused.Keys)
    {
      hide LeftOut, LeftOutOne;
      var left := refused.Keys;
      ghost var before := View();
      LeaveOutNone(before, refused);
      assert refused.Keys - left == {};
      while left != {}
        invariant left <= refused.Keys
        invariant View() == LeftOut(before, refused, refused.Keys - left)
        decreases |left|
      {
        var user := Min(left);
        LeaveOutNext(before, refused, refused.Keys - left, user);
        LeaveOutOne(user, refused[user]);
        assert refused.Keys - left + {user} == refused.Keys - (left - {user});
        left := left - {user};
      }
      assert refused.Keys - left == refused.Keys;
    }

    method LeaveOutOne(user: UserId, key: PublicKey)
      modifies `unwrappable, `peers, `owners
      ensures View() == LeftOutOne(old(View()), user, key)
    {
      hide OwnersLeft;
      unwrappable := unwrappable[user := key];
      peers := peers - {user};
      owners := OwnersLeft(owners, {user});
    }

    // ---- Their secrets -----------------------------------------------------------------

    method SenderKey(sender: UserId, at: Epoch, blob: Blob, now: Time) returns (error: Option<KeyError>)
      requires Valid()
      modifies `received, `recvKeys, `early, `generation
      ensures (View(), error) == KeyModel.SenderKey(old(View()), sender, at, blob, now)
      ensures Valid()
    {
      if blob.Length() != WRAPPED_BYTES {
        return Some(WrongLength);
      }
      error := SenderKeyAt(sender, at, blob, now, now);
    }

    method SenderKeyAt(sender: UserId, at: Epoch, blob: Blob, arrived: Time, now: Time) returns (error: Option<KeyError>)
      requires Valid()
      modifies `received, `recvKeys, `early, `generation
      ensures (View(), error) == KeyModel.SenderKeyAt(old(View()), sender, at, blob, arrived, now)
      ensures Valid()
    {
      hide StoreKey, KeyModel.BelowFloor;
      var below := BelowFloor(at);
      if below {
        return Some(Stale);
      }
      if room.None? || sender !in peers || at > epoch {
        if |early| < MAX_EARLY || (sender, at) in early {
          HeldAreFew(early, (sender, at), (arrived, blob));
          early := early[(sender, at) := (arrived, blob)];
        }
        return None;
      }
      var retireAt := None;
      if at < epoch {
        var ends := epochSince + OLD_KEY_GRACE;
        if now >= ends {
          return Some(Stale);
        }
        retireAt := Some(ends);
      }
      var key := peers[sender].encryptionKey;
      var context := Context(server, room.value, at, sender, me);
      var secret := Unwrap(encryption, key, context, blob);
      if secret.None? && retiredEncryption.Some? {
        secret := Unwrap(retiredEncryption.value.0, key, context, blob);
      }
      if secret.None? {
        return Some(Unopened);
      }
      Store((sender, at), Received(secret.value, retireAt), now);
      error := None;
    }

    /** The sender's older secrets are on their way out from now on. */
    method Store(k: SenderAt, r: Received, now: Time)
      modifies `received, `recvKeys, `generation
      ensures View() == StoreKey(old(View()), k, r, now)
    {
      hide RetireAmong, RetireEarlierOf, Forget;
      RetireReceived(now, (j: SenderAt) => j.0 == k.0 && j.1 < k.1);
      RetiredEarlier(old(received), k.0, k.1, now);
      received := received[k := r];
      recvKeys := Forget(recvKeys, k.0, k.1);
      generation := generation + 1;
    }

    method BelowFloor(at: Epoch) returns (below: bool)
      ensures below == KeyModel.BelowFloor(View(), at)
    {
      below := (floor.Some? && at <= floor.value) || at + 1 < epoch;
    }

    /** Judges every early key again, one after another, in whatever order. */
    method TakeEarly(now: Time)
      requires Valid()
      modifies `received, `recvKeys, `early, `generation
      ensures View() == KeyModel.TakeEarly(old(View()), now)
      ensures Valid()
    {
      hide Absorb;
      var waiting := early;
      early := map[];
      JudgeAgain(waiting, old(View()), now);
    }

    method JudgeAgain(waiting: EarlyKeys, ghost before: Keys, now: Time)
      requires Valid()
      requires View() == before.(early := map[]) && before.early == waiting && |waiting| <= MAX_EARLY
      modifies `received, `recvKeys, `early, `generation
      ensures View() == Absorb(before, waiting.Keys, now)
      ensures Valid()
    {
      hide Absorb, JudgedAgain;
      var left := waiting.Keys;
      ghost var done: set<SenderAt> := {};
      NothingAbsorbed(before, now);
      while left != {}
        invariant done + left == waiting.Keys && done !! left && Valid()
        invariant View() == Absorb(before, done, now)
        decreases |left|
      {
        ghost var some: SenderAt := Pick(left);
        assert some in left;
        var k :| k in left;
        JudgeNext(before, done, k, now);
        MovesOver(waiting.Keys, done, left, k);
        JudgeOne(k, waiting[k], now);
        left := left - {k};
        done := done + {k};
      }
      SameSet(done, waiting.Keys);
    }

    method JudgeOne(k: SenderAt, held: (Time, Blob), now: Time)
      requires Valid()
      modifies `received, `recvKeys, `early, `generation
      ensures View() == JudgedAgain(old(View()), k, held, now)
      ensures Valid()
    {
      hide KeyModel.SenderKeyAt;
      if IsFresh(held.0, now) {
        var error := SenderKeyAt(k.0, k.1, held.1, held.0, now);
      }
    }

    // ---- Reading keys ------------------------------------------------------------------

    method SendKey(id: MediaId) returns (key: Option<(Epoch, TrackKey)>)
      ensures key == KeyModel.SendKey(View(), id)
    {
      if id !in sendKeys {
        return None;
      }
      key := Some((epoch, sendKeys[id]));
    }

    method RecvKey(id: MediaId, at: Epoch) returns (key: Option<TrackKey>)
      requires Valid()
      modifies `recvKeys
      ensures (View(), key) == KeyModel.RecvKey(old(View()), id, at)
    {
      var below := BelowFloor(at);
      if below || id !in owners {
        return None;
      }
      var owner := owners[id];
      if (id, at) in recvKeys && recvKeys[(id, at)].0 == owner {
        return Some(recvKeys[(id, at)].1);
      }
      if (owner, at) !in received {
        return None;
      }
      var derived := Derived(received[(owner, at)].secret, id);
      recvKeys := recvKeys[(id, at) := (owner, derived)];
      key := Some(derived);
    }

    method Tick(now: Time)
      requires Valid()
      modifies `retiredEncryption, `received, `recvKeys, `early
      ensures View() == KeyModel.Tick(old(View()), now)
      ensures Valid()
    {
      hide Kept, CachedFor, FreshEarly;
      if retiredEncryption.Some? && retiredEncryption.value.1 <= now {
        retiredEncryption := None;
      }
      DropExpired(now);
    }

    method DropExpired(now: Time)
      requires Valid()
      modifies `received, `recvKeys, `early
      ensures received == Kept(old(received), now) && recvKeys == CachedFor(old(recvKeys), received)
      ensures early == FreshEarly(old(early), now) && Valid()
    {
      hide Kept, CachedFor;
      received := Kept(received, now);
      recvKeys := CachedFor(recvKeys, received);
      Fewer(FreshEarly(early, now).Keys, early.Keys);
      early := FreshEarly(early, now);
    }
  }

  lemma RetiredAre(received: ReceivedKeys, departed: set<UserId>, now: Time)
    ensures RetireAmong(received, received.Keys, (k: SenderAt) => k.0 in departed, now) == RetireDeparted(received, departed, now)
  {
    SameMap(RetireAmong(received, received.Keys, (k: SenderAt) => k.0 in departed, now), RetireDeparted(received, departed, now));
  }

  lemma RetiredBefore(received: ReceivedKeys, epoch: Epoch, now: Time)
    ensures RetireAmong(received, received.Keys, (k: SenderAt) => k.1 < epoch, now) == RetireBefore(received, epoch, now)
  {
    SameMap(RetireAmong(received, received.Keys, (k: SenderAt) => k.1 < epoch, now), RetireBefore(received, epoch, now));
  }

  lemma RetiredEarlier(received: ReceivedKeys, user: UserId, epoch: Epoch, now: Time)
    ensures RetireAmong(received, received.Keys, (k: SenderAt) => k.0 == user && k.1 < epoch, now) == RetireEarlierOf(received, user, epoch, now)
  {
    SameMap(RetireAmong(received, received.Keys, (k: SenderAt) => k.0 == user && k.1 < epoch, now),
            RetireEarlierOf(received, user, epoch, now));
  }

  lemma HeldAreFew(early: EarlyKeys, k: SenderAt, held: (Time, Blob))
    requires |early| <= MAX_EARLY && (|early| < MAX_EARLY || k in early)
    ensures |early[k := held]| <= MAX_EARLY
  {
    if k in early {
      assert early[k := held].Keys == early.Keys;
    } else {
      assert early[k := held].Keys == early.Keys + {k};
    }
  }
}
