/** What a client's keys guarantee: step by step, and over whole runs. */
module KeyTheorems {
  import opened Collections
  import opened KeyModel
  import opened KeyInvariants

  // ---- One room state ------------------------------------------------------------------

  /** What a request must hold to hand `s`'s secret to exactly the peers it trusts. */
  function PublishToAll(s: Keys, room: RoomId): Publish
    requires s.mySecret.Some?
  {
    Publish(s.epoch, map u | u in s.peers :: SealFor(s, room, s.mySecret.value, u))
  }

  predicate Accepts(s: Keys, room: RoomId, epoch: Epoch) {
    s.room == Some(room) && s.epoch <= epoch
  }

  lemma RekeyPublishes(s: Keys, room: RoomId, epoch: Epoch, now: Time)
    ensures var (t, request) := Rekey(s, room, epoch, now);
      && t.mySecret.Some? && t.epoch == epoch && t.room == s.room
      && (!NeedsNewSecret(s, epoch) ==> t == s && request == None)
      && (NeedsNewSecret(s, epoch) ==>
            && t.mySecret == Some(Secret(s.me, s.serial)) && t.serial == s.serial + 1
            && request == if t.peers == map[] then None else Some(PublishToAll(t, room)))
  {
    if NeedsNewSecret(s, epoch) {
      WrapsForAll(StartEpoch(s, epoch, now), room);
    } else {
      WrapsForNobody(s, room);
    }
  }

  lemma WrapsForAll(s: Keys, room: RoomId)
    requires s.mySecret.Some? && s.wrappedTo == {}
    ensures var (t, request) := WrapForNewPeers(s, room);
      request == if t.peers == map[] then None else Some(PublishToAll(t, room))
  {
    hide RefusedKeys, OwnersLeft, GivenTo;
    var t := WrapForNewPeers(s, room).0;
    var wrapped, all := WrapAll(s, room, s.mySecret.value), PublishToAll(t, room).wrapped;
    forall u ensures (u in wrapped <==> u in all) && (u in wrapped ==> wrapped[u] == all[u]) {
      assert u in s.peers ==> IsNew(s, u);
    }
    SameMap(wrapped, all);
    assert wrapped.Keys == t.peers.Keys;
  }

  lemma WrapsForNobody(s: Keys, room: RoomId)
    requires s.mySecret.Some? && s.wrappedTo == PeerSet(s.peers)
    ensures WrapForNewPeers(s, room) == (s, None)
  {
    hide OwnersLeft, RefusedKeys, WrapAll;
    NobodyIsNew(s);
    WithNothing(s.peers, s.wrappedTo);
    WithNothing(s.unwrappable, s.wrappedTo);
    NothingOfNobody(s, room);
  }

  lemma NothingOfNobody(s: Keys, room: RoomId)
    requires s.mySecret.Some? && Recipients(s) == {}
    ensures RefusedKeys(s.peers, {}) == map[] && WrapAll(s, room, s.mySecret.value) == map[] && OwnersLeft(s.owners, {}) == s.owners
  {
    Empty(RefusedKeys(s.peers, {}));
    Empty(WrapAll(s, room, s.mySecret.value));
    forall id ensures (id in OwnersLeft(s.owners, {}) <==> id in s.owners) && (id in s.owners ==> OwnersLeft(s.owners, {})[id] == s.owners[id]) {
    }
    SameMap(OwnersLeft(s.owners, {}), s.owners);
  }

  lemma EarlyTouches(s: Keys, now: Time)
    ensures var t := TakeEarly(s, now);
      t == s.(received := t.received, recvKeys := t.recvKeys, early := t.early, generation := t.generation)
  {
  }

  lemma TrustStands(s: Keys, room: RoomId, peers: seq<Peer>, now: Time, unix: nat)
    ensures var t := TrustState(s, room, peers, now, unix);
      t == s.(unwrappable := t.unwrappable, roomPeers := peers, received := t.received, peers := t.peers, owners := t.owners)
  {
    hide StillUnwrappable, TrustedNow, Owners, Departed, RetireDeparted;
  }

  /** An accepted room state leaves us with a secret that the trusted peers, and only they,
      have been sent. It is a new one just when the epoch moved, the trusted peers or their
      keys changed, or there was none; and only then is anything sent, to all of them at
      once. */
  lemma RoomStateRekeys(s: Keys, room: RoomId, epoch: Epoch, peers: seq<Peer>, clock: Time, now: Time, unix: nat)
    requires Inv(s, clock) && clock <= now && Accepts(s, room, epoch)
    ensures var (t, request) := PeersChanged(s, room, epoch, peers, now, unix);
            var trusted := TrustState(s, room, peers, now, unix).peers;
            var kept := epoch == s.epoch && s.mySecret.Some? && PeerSet(trusted) == s.wrappedTo;
      && t.mySecret.Some? && t.epoch == epoch && t.wrappedTo == PeerSet(t.peers)
      && (kept ==> t.mySecret == s.mySecret && t.serial == s.serial && request == None)
      && (!kept ==>
            && t.mySecret == Some(Secret(s.me, s.serial)) && t.mySecret != s.mySecret && t.serial == s.serial + 1
            && request == if t.peers == map[] then None else Some(PublishToAll(t, room)))
  {
    hide TrustState, Rekey, TakeEarly, PeerSet, Core;
    PeersChangedKeeps(s, room, epoch, peers, clock, now, unix);
    var trusting := TrustState(s, room, peers, now, unix);
    TrustStands(s, room, peers, now, unix);
    RekeyPublishes(trusting, room, epoch, now);
    var rekeyed := Rekey(trusting, room, epoch, now).0;
    EarlyTouches(rekeyed, now);
    var t := PeersChanged(s, room, epoch, peers, now, unix).0;
    assert t.peers == rekeyed.peers && t.mySecret == rekeyed.mySecret;
    assert PublishToAll(t, room) == PublishToAll(rekeyed, room);
  }

  // ---- The same room state again -------------------------------------------------------

  ghost predicate OnePerUser(me: UserId, peers: seq<Peer>) {
    forall i, j :: 0 <= i < j < |peers| && peers[i].user != me ==> peers[i].user != peers[j].user
  }

  lemma {:induction false} OthersOnce(me: UserId, peers: seq<Peer>)
    requires Distinct(UserList(Others(me, peers)))
    ensures OnePerUser(me, peers)
  {
    if peers != [] {
      var others, rest := Others(me, peers), Others(me, peers[1..]);
      if peers[0].user != me {
        forall i, j | 0 <= i < j < |rest| ensures UserList(rest)[i] != UserList(rest)[j] {
          assert UserList(others)[i + 1] != UserList(others)[j + 1];
        }
      }
      OthersOnce(me, peers[1..]);
      OthersAre(me, peers[1..]);
      forall j | 0 < j < |peers| && peers[0].user != me ensures peers[0].user != peers[j].user {
        assert peers[j] in peers[1..];
        if peers[j] in rest {
          var k :| 0 <= k < |rest| && rest[k] == peers[j];
          assert UserList(others)[0] != UserList(others)[k + 1];
        }
      }
      forall i, j | 0 <= i < j < |peers| && peers[i].user != me ensures peers[i].user != peers[j].user {
        if i > 0 {
          assert peers[1..][i - 1].user != peers[1..][j - 1].user;
        }
      }
    }
  }

  lemma {:induction false} TrustedHas(s: Keys, room: RoomId, peers: seq<Peer>, unix: nat, p: Peer)
    requires p in peers && OnePerUser(s.me, peers) && IsTrusted(s, room, p, unix)
    ensures p.user in Trusted(s, room, peers, unix) && Trusted(s, room, peers, unix)[p.user] == KeysOf(p)
  {
    var last := peers[|peers| - 1];
    var rest := peers[..|peers| - 1];
    if p != last {
      var i :| 0 <= i < |peers| && peers[i] == p;
      assert peers[i].user != last.user;
      assert rest[i] == p;
      TrustedHas(s, room, rest, unix, p);
    }
  }

  /** Trusting the same peers again, with some HPKE refused since, leaves just those out. */
  lemma TrustedAgain(s: Keys, t: Keys, room: RoomId, peers: seq<Peer>, unix: nat, refused: set<UserId>)
    requires OnePerUser(s.me, peers)
    requires t.me == s.me && t.server == s.server && t.present == s.present
    requires var trusted := Trusted(s, room, peers, unix);
      && refused <= trusted.Keys
      && t.unwrappable == s.unwrappable + RefusedKeys(trusted, refused)
    ensures Trusted(t, room, peers, unix) == Trusted(s, room, peers, unix) - refused
  {
    var before, after := Trusted(s, room, peers, unix), Trusted(t, room, peers, unix);
    forall u | u in after ensures u in before && u !in refused && after[u] == before[u] {
      TrustedAreListed(t, room, peers, unix, u);
      var p :| p in peers && p.user == u && IsTrusted(t, room, p, unix) && after[u] == KeysOf(p);
      if u in refused {
        TrustedAreListed(s, room, peers, unix, u);
        var q :| q in peers && q.user == u && IsTrusted(s, room, q, unix) && before[u] == KeysOf(q);
        SamePeer(s.me, peers, p, q);
      } else {
        TrustedHas(s, room, peers, unix, p);
      }
    }
    forall u | u in before && u !in refused ensures u in after {
      TrustedAreListed(s, room, peers, unix, u);
      var p :| p in peers && p.user == u && IsTrusted(s, room, p, unix) && before[u] == KeysOf(p);
      TrustedHas(t, room, peers, unix, p);
    }
  }

  lemma SamePeer(me: UserId, peers: seq<Peer>, p: Peer, q: Peer)
    requires OnePerUser(me, peers) && p in peers && q in peers && p.user != me
    ensures p.user == q.user ==> p == q
  {
    var i :| 0 <= i < |peers| && peers[i] == p;
    var j :| 0 <= j < |peers| && peers[j] == q;
    if i < j {
      assert peers[i].user != peers[j].user;
    } else if j < i {
      assert peers[j].user != peers[i].user;
    }
  }

  lemma OwnersAgree(peers: KeyPeers, a: map<MediaId, UserId>, b: map<MediaId, UserId>)
    requires OwnersAreTrue(peers, a) && OwnersAreTrue(peers, b)
    ensures forall id :: id in a ==> id in b && a[id] == b[id]
  {
    forall id | id in a ensures id in b && a[id] == b[id] {
      var u := a[id];
      assert u in peers && id in TrackIds(peers[u].tracks);
      assert id in b && b[id] == u;
    }
  }

  lemma OwnersAreUnique(peers: KeyPeers, a: map<MediaId, UserId>, b: map<MediaId, UserId>)
    requires OwnersAreTrue(peers, a) && OwnersAreTrue(peers, b)
    ensures a == b
  {
    OwnersAgree(peers, a, b);
    OwnersAgree(peers, b, a);
    forall id ensures (id in a <==> id in b) && (id in a ==> a[id] == b[id]) {
    }
    SameMap(a, b);
  }

  /** A room state applied already, and nothing new to take in. */
  ghost predicate IsApplied(s: Keys, room: RoomId, peers: seq<Peer>, now: Time, unix: nat) {
    && s.room == Some(room) && s.roomPeers == peers && s.mySecret.Some?
    && (IsInvalid(s, peers) ==> s.peers == map[])
    && (!IsInvalid(s, peers) ==> Trusted(s, room, peers, unix) == s.peers && s.unwrappable.Keys <= Users(peers))
    && (forall k :: k in s.early ==> IsFresh(s.early[k].0, now) && JudgeEarly(s, k, now).Hold?)
  }

  lemma ApplyingAgain(s: Keys, room: RoomId, peers: seq<Peer>, now: Time, unix: nat)
    requires Inv(s, now) && IsApplied(s, room, peers, now, unix)
    ensures TrustState(s, room, peers, now, unix) == s
    ensures TakeEarly(s, now) == s
  {
    assert Listed(s.unwrappable, peers) == s.unwrappable || IsInvalid(s, peers);
    assert RetireDeparted(s.received, {}, now) == s.received;
    assert Departed(s.peers, s.peers) == {};
    if !IsInvalid(s, peers) {
      TrustedOwners(s, room, peers, unix);
    } else {
      assert OwnersAreTrue(map[], Owners(map[]));
    }
    OwnersAreUnique(s.peers, s.owners, Owners(s.peers));
    NothingArrives(s, now);
  }

  lemma NothingArrives(s: Keys, now: Time)
    requires forall k :: k in s.early ==> IsFresh(s.early[k].0, now) && JudgeEarly(s, k, now).Hold?
    ensures TakeEarly(s, now) == s
  {
    assert Arrived(s, s.early.Keys, now) == {};
    assert StillEarly(s, s.early.Keys, now) == s.early;
    assert CachedWithout(s.recvKeys, {}) == s.recvKeys;
    assert ReceivedWith(s, {}, now) == s.received;
  }

  ghost predicate RefusesSome(s: Keys, t: Keys) {
    exists refused: set<UserId> ::
      && refused <= s.peers.Keys && t.peers == s.peers - refused
      && t.unwrappable == s.unwrappable + RefusedKeys(s.peers, refused)
  }

  lemma WrapRefuses(s: Keys, room: RoomId)
    requires s.mySecret.Some?
    ensures RefusesSome(s, WrapForNewPeers(s, room).0)
  {
    hide WrapAll, GivenTo, RefusedKeys, OwnersLeft;
    assert Refused(s) <= s.peers.Keys;
  }

  lemma WrapTouches(s: Keys, room: RoomId)
    ensures var t := WrapForNewPeers(s, room).0;
      t == s.(unwrappable := t.unwrappable, peers := t.peers, owners := t.owners, wrappedTo := t.wrappedTo)
  {
    hide Refused, WrapAll, GivenTo, RefusedKeys, OwnersLeft;
  }

  lemma StartTouches(s: Keys, epoch: Epoch, now: Time)
    ensures var t := StartEpoch(s, epoch, now);
      && t.mySecret.Some?
      && t == s.(received := t.received, epoch := epoch, epochSince := t.epochSince, floors := t.floors,
                 serial := t.serial, sendKeys := t.sendKeys, mySecret := t.mySecret, wrappedTo := {})
  {
    hide RetireBefore, Raise, DeriveAll, MyTrackIds;
  }

  lemma RekeyRefuses(s: Keys, room: RoomId, epoch: Epoch, now: Time)
    ensures RefusesSome(s, Rekey(s, room, epoch, now).0)
    ensures var t := Rekey(s, room, epoch, now).0;
      && t.room == s.room && t.me == s.me && t.server == s.server && t.present == s.present
      && t.roomPeers == s.roomPeers && t.myTracks == s.myTracks && t.early == s.early && t.mySecret.Some?
  {
    hide StartEpoch, WrapForNewPeers, PeerSet;
    var ready := if NeedsNewSecret(s, epoch) then StartEpoch(s, epoch, now) else s;
    StartTouches(s, epoch, now);
    WrapTouches(ready, room);
    WrapRefuses(ready, room);
  }

  lemma TrustedUsers(s: Keys, room: RoomId, peers: seq<Peer>, unix: nat)
    ensures Trusted(s, room, peers, unix).Keys <= Users(peers)
  {
    forall u | u in Trusted(s, room, peers, unix) ensures u in Users(peers) {
      TrustedAreListed(s, room, peers, unix, u);
      var p :| p in peers && p.user == u;
      var i :| 0 <= i < |peers| && peers[i] == p;
      assert peers[i].user in Users(peers);
    }
  }

  lemma RekeyedIsApplied(s: Keys, room: RoomId, epoch: Epoch, peers: seq<Peer>, now: Time, unix: nat)
    requires s.room == Some(room)
    ensures var t := Rekey(TrustState(s, room, peers, now, unix), room, epoch, now).0;
      && t.room == Some(room) && t.roomPeers == peers && t.mySecret.Some?
      && IsInvalid(t, peers) == IsInvalid(s, peers)
      && (IsInvalid(s, peers) ==> t.peers == map[])
      && (!IsInvalid(s, peers) ==> Trusted(t, room, peers, unix) == t.peers && t.unwrappable.Keys <= Users(peers))
  {
    var trusting := TrustState(s, room, peers, now, unix);
    var t := Rekey(trusting, room, epoch, now).0;
    hide PeerSet, Departed, RetireDeparted, Owners, Rekey;
    RekeyRefuses(trusting, room, epoch, now);
    if !IsInvalid(s, peers) {
      var listed := s.(unwrappable := Listed(s.unwrappable, peers));
      assert trusting.peers == Trusted(listed, room, peers, unix);
      OthersOnce(s.me, peers);
      TrustedUsers(listed, room, peers, unix);
      var refused: set<UserId> :| refused <= trusting.peers.Keys && t.peers == trusting.peers - refused
        && t.unwrappable == trusting.unwrappable + RefusedKeys(trusting.peers, refused);
      TrustedAgain(listed, t, room, peers, unix, refused);
    }
  }

  lemma StillHeld(s: Keys, now: Time)
    ensures var t := TakeEarly(s, now);
            forall k :: k in t.early ==> IsFresh(t.early[k].0, now) && JudgeEarly(t, k, now).Hold?
  {
    var t := TakeEarly(s, now);
    forall k | k in t.early ensures IsFresh(t.early[k].0, now) && JudgeEarly(t, k, now).Hold? {
      assert JudgeEarly(s, k, now).Hold?;
      JudgedAlike(s, t, k, t.early[k].1, now);
    }
  }

  lemma StateIsApplied(s: Keys, room: RoomId, epoch: Epoch, peers: seq<Peer>, now: Time, unix: nat)
    requires Accepts(s, room, epoch)
    ensures IsApplied(PeersChanged(s, room, epoch, peers, now, unix).0, room, peers, now, unix)
  {
    hide Rekey, TrustState, TakeEarly, Trusted, Judge;
    var rekeyed := Rekey(TrustState(s, room, peers, now, unix), room, epoch, now).0;
    var taken := TakeEarly(rekeyed, now);
    var t := PeersChanged(s, room, epoch, peers, now, unix).0;
    RekeyedIsApplied(s, room, epoch, peers, now, unix);
    EarlyTouches(rekeyed, now);
    StillHeld(rekeyed, now);
    SameTrust(rekeyed, t, room, peers, unix);
    forall k | k in t.early ensures IsFresh(t.early[k].0, now) && JudgeEarly(t, k, now).Hold? {
      assert JudgeEarly(taken, k, now).Hold?;
      JudgedAlike(taken, t, k, t.early[k].1, now);
    }
  }

  lemma AppliedStays(t: Keys, room: RoomId, epoch: Epoch, peers: seq<Peer>, now: Time, unix: nat)
    requires Inv(t, now) && IsApplied(t, room, peers, now, unix) && t.epoch == epoch
    ensures PeersChanged(t, room, epoch, peers, now, unix) == (t.(generation := t.generation + 1), None)
    ensures ReapplyPeers(t, now, unix) == (t.(generation := t.generation + 1), None)
  {
    hide Core;
    ApplyingAgain(t, room, peers, now, unix);
    RekeyPublishes(t, room, t.epoch, now);
  }

  /** Once a room state is applied, doing so again at that clock sends nothing, and changes
      nothing but the generation. */
  lemma ApplyingTwiceIsOnce(s: Keys, t: Keys, room: RoomId, epoch: Epoch, peers: seq<Peer>, clock: Time, now: Time, unix: nat)
    requires Inv(s, clock) && clock <= now && Accepts(s, room, epoch)
    requires t == PeersChanged(s, room, epoch, peers, now, unix).0
    ensures PeersChanged(t, room, epoch, peers, now, unix) == (t.(generation := t.generation + 1), None)
    ensures ReapplyPeers(t, now, unix) == (t.(generation := t.generation + 1), None)
  {
    hide Core;
    RoomStateRekeys(s, room, epoch, peers, clock, now, unix);
    PeersChangedKeeps(s, room, epoch, peers, clock, now, unix);
    StateIsApplied(s, room, epoch, peers, now, unix);
    AppliedStays(t, room, epoch, peers, now, unix);
  }

  lemma {:induction false} SameTrust(s: Keys, t: Keys, room: RoomId, peers: seq<Peer>, unix: nat)
    requires t.me == s.me && t.server == s.server && t.present == s.present && t.unwrappable == s.unwrappable
    ensures Trusted(s, room, peers, unix) == Trusted(t, room, peers, unix)
  {
    if peers != [] {
      SameTrust(s, t, room, peers[..|peers| - 1], unix);
    }
  }

  // ---- Reading keys --------------------------------------------------------------------

  /** The cache is invisible: what is read is what the stored secret of the media id's owner
      gives, and nothing for an epoch below the floor or long past. */
  lemma CacheIsInvisible(s: Keys, id: MediaId, epoch: Epoch, clock: Time)
    requires Inv(s, clock)
    ensures RecvKey(s, id, epoch).1 ==
      if !BelowFloor(s, epoch) && id in s.owners && (s.owners[id], epoch) in s.received
      then Some(Derived(s.received[(s.owners[id], epoch)].secret, id))
      else None
  {
  }

  /** Ticking once the last move to another epoch is a grace period ago leaves only secrets of
      the current epoch, and cached keys of those. */
  lemma GraceEnds(s: Keys, clock: Time, now: Time)
    requires Inv(s, clock) && s.epochSince + OLD_KEY_GRACE <= now
    ensures var t := Tick(s, now);
      && (forall k :: k in t.received ==> k.1 == s.epoch)
      && (forall k :: k in t.recvKeys ==> k.1 == s.epoch)
  {
  }
}
