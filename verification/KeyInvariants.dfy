/** What every step of a client's keys keeps. */
module KeyInvariants {
  import opened Collections
  import opened KeyModel

  // ---- What is kept --------------------------------------------------------------------

  /** Our secret was wrapped to exactly the peers of now, under the keys they have now. */
  ghost predicate Settled(s: Keys) {
    HasSecret(s) && (s.mySecret.Some? ==> s.wrappedTo == PeerSet(s.peers))
  }

  /** We send with the keys that our secret gives, and with none while there is no secret. */
  ghost predicate HasSecret(s: Keys) {
    && (s.mySecret.None? ==> s.sendKeys == map[])
    && (s.mySecret.Some? ==>
          && s.room.Some?
          && s.mySecret.value.owner == s.me && s.mySecret.value.serial < s.serial
          && s.sendKeys == DeriveAll(s.mySecret.value, MyTrackIds(s)))
  }

  /** Every cached key is the one its owner's stored secret gives. */
  ghost predicate CacheIsTrue(received: ReceivedKeys, cached: CachedKeys) {
    forall k :: k in cached ==>
      (cached[k].0, k.1) in received && cached[k].1 == Derived(received[(cached[k].0, k.1)].secret, k.0)
  }

  /** Stored secrets are of this room's epochs, up to ours and past the floor. */
  ghost predicate StoredAreOurs(s: Keys) {
    forall k :: k in s.received ==>
      s.room.Some? && k.1 <= s.epoch && (s.floor.Some? ==> s.floor.value < k.1)
  }

  /** No secret of a past epoch outlives the grace period that began with this one. */
  ghost predicate OldOnesRetire(received: ReceivedKeys, epoch: Epoch, since: Time) {
    forall k :: k in received && k.1 < epoch ==>
      received[k].retireAt.Some? && received[k].retireAt.value <= since + OLD_KEY_GRACE
  }

  ghost predicate RetireInTime(received: ReceivedKeys, clock: Time) {
    forall k :: k in received && received[k].retireAt.Some? ==> received[k].retireAt.value <= clock + OLD_KEY_GRACE
  }

  /** An early key waits for its room state: its sender isn't trusted yet, or it is of a later
      epoch. */
  ghost predicate EarlyOnesWait(s: Keys) {
    forall k :: k in s.early ==> s.room.None? || k.0 !in s.peers || s.epoch < k.1
  }

  ghost predicate OwnersAreTrue(peers: KeyPeers, owners: map<MediaId, UserId>) {
    && (forall id :: id in owners ==> owners[id] in peers && id in TrackIds(peers[owners[id]].tracks))
    && (forall u, id :: u in peers && id in TrackIds(peers[u].tracks) ==> id in owners && owners[id] == u)
  }

  /** What holds at every step, even halfway through a room state. */
  ghost predicate Core(s: Keys, clock: Time) {
    && CacheIsTrue(s.received, s.recvKeys)
    && StoredAreOurs(s)
    && OldOnesRetire(s.received, s.epoch, s.epochSince)
    && RetireInTime(s.received, clock)
    && s.epochSince <= clock
    && |s.early| <= MAX_EARLY
    && OwnersAreTrue(s.peers, s.owners)
  }

  /** The rest of the state doesn't concern `Core`. */
  lemma SameCore(s: Keys, t: Keys, clock: Time)
    requires Core(s, clock)
    requires t == s.(me := t.me, encryption := t.encryption, retiredEncryption := t.retiredEncryption, present := t.present,
                     roomPeers := t.roomPeers, myTracks := t.myTracks, mySecret := t.mySecret, wrappedTo := t.wrappedTo,
                     unwrappable := t.unwrappable, sendKeys := t.sendKeys, stashed := t.stashed,
                     generation := t.generation, serial := t.serial)
    ensures Core(t, clock)
  {
  }

  ghost predicate Inv(s: Keys, clock: Time) {
    Core(s, clock) && Settled(s) && EarlyOnesWait(s)
  }

  lemma SameInv(s: Keys, t: Keys, clock: Time)
    requires Inv(s, clock) && t == s.(stashed := t.stashed, generation := t.generation)
    ensures Inv(t, clock)
  {
    hide Core, DeriveAll, PeerSet;
    SameCore(s, t, clock);
  }

  // ---- Early keys ----------------------------------------------------------------------

  lemma JudgedAlike(s: Keys, t: Keys, k: SenderAt, blob: Blob, now: Time)
    requires t == s.(received := t.received, recvKeys := t.recvKeys, early := t.early, generation := t.generation)
    ensures Judge(t, k.0, k.1, blob, now) == Judge(s, k.0, k.1, blob, now)
  {
  }

  /** Early keys stored in whatever order end up as if all were judged at once. */
  lemma AbsorbNext(s: Keys, ids: set<SenderAt>, k: SenderAt, now: Time)
    requires ids <= s.early.Keys && k in s.early && k !in ids && |s.early| <= MAX_EARLY
    ensures Absorb(s, ids + {k}, now) ==
      if IsFresh(s.early[k].0, now)
      then SenderKeyAt(Absorb(s, ids, now), k.0, k.1, s.early[k].1, s.early[k].0, now).0
      else Absorb(s, ids, now)
  {
    JudgedAlike(s, Absorb(s, ids, now), k, s.early[k].1, now);
    if !IsFresh(s.early[k].0, now) || JudgeEarly(s, k, now).Refuse? {
      AbsorbRefused(s, ids, k, now);
    } else if JudgeEarly(s, k, now).Hold? {
      AbsorbHeld(s, ids, k, now);
      RoomForOneMore(s, ids, k, now);
    } else {
      AbsorbStored(s, ids, k, now);
    }
  }

  lemma AbsorbRefused(s: Keys, ids: set<SenderAt>, k: SenderAt, now: Time)
    requires k in s.early && (!IsFresh(s.early[k].0, now) || JudgeEarly(s, k, now).Refuse?)
    ensures Absorb(s, ids + {k}, now) == Absorb(s, ids, now)
  {
    assert Arrived(s, ids + {k}, now) == Arrived(s, ids, now);
    assert StillEarly(s, ids + {k}, now) == StillEarly(s, ids, now);
  }

  lemma AbsorbHeld(s: Keys, ids: set<SenderAt>, k: SenderAt, now: Time)
    requires k in s.early && IsFresh(s.early[k].0, now) && JudgeEarly(s, k, now).Hold?
    ensures Absorb(s, ids + {k}, now) == Absorb(s, ids, now).(early := StillEarly(s, ids, now)[k := s.early[k]])
  {
    assert Arrived(s, ids + {k}, now) == Arrived(s, ids, now);
    assert StillEarly(s, ids + {k}, now) == StillEarly(s, ids, now)[k := s.early[k]];
  }

  lemma RoomForOneMore(s: Keys, ids: set<SenderAt>, k: SenderAt, now: Time)
    requires ids <= s.early.Keys && k in s.early && k !in ids && |s.early| <= MAX_EARLY
    ensures |StillEarly(s, ids, now)| < MAX_EARLY
  {
    var held := StillEarly(s, ids, now).Keys;
    assert held <= s.early.Keys - {k};
    Fewer(held, s.early.Keys - {k});
    assert |s.early.Keys - {k}| == |s.early.Keys| - 1;
  }

  lemma SetsNext(s: Keys, ids: set<SenderAt>, k: SenderAt, now: Time)
    requires k in s.early && k !in ids && IsFresh(s.early[k].0, now) && JudgeEarly(s, k, now).Store?
    ensures k !in Arrived(s, ids, now)
    ensures Arrived(s, ids + {k}, now) == Arrived(s, ids, now) + {k}
    ensures StillEarly(s, ids + {k}, now) == StillEarly(s, ids, now)
  {
  }

  lemma CachedNext(cached: CachedKeys, arrived: set<SenderAt>, k: SenderAt)
    ensures CachedWithout(cached, arrived + {k}) == Forget(CachedWithout(cached, arrived), k.0, k.1)
  {
  }

  lemma SetsStored(s: Keys, arrived: set<SenderAt>, still: EarlyKeys, k: SenderAt, now: Time)
    requires forall j :: j in arrived + {k} ==> j in s.early && JudgeEarly(s, j, now).Store?
    requires k !in arrived
    ensures AbsorbSets(s, arrived + {k}, still, now) == StoreKey(AbsorbSets(s, arrived, still, now), k, StoredEarly(s, k, now), now)
  {
    hide ReceivedWith, CachedWithout, RetireEarlierOf, Forget;
    CachedNext(s.recvKeys, arrived, k);
    ReceivedNext(s, arrived, k, now);
    assert |arrived + {k}| == |arrived| + 1;
  }

  lemma AbsorbStored(s: Keys, ids: set<SenderAt>, k: SenderAt, now: Time)
    requires k in s.early && k !in ids && IsFresh(s.early[k].0, now) && JudgeEarly(s, k, now).Store?
    ensures Absorb(s, ids + {k}, now) == StoreKey(Absorb(s, ids, now), k, StoredEarly(s, k, now), now)
  {
    SetsNext(s, ids, k, now);
    SetsStored(s, Arrived(s, ids, now), StillEarly(s, ids, now), k, now);
  }

  lemma ReceivedNext(s: Keys, arrived: set<SenderAt>, k: SenderAt, now: Time)
    requires forall j :: j in arrived + {k} ==> j in s.early && JudgeEarly(s, j, now).Store?
    requires k !in arrived
    ensures ReceivedWith(s, arrived + {k}, now) ==
            RetireEarlierOf(ReceivedWith(s, arrived, now), k.0, k.1, now)[k := StoredEarly(s, k, now)]
  {
    var left := ReceivedWith(s, arrived + {k}, now);
    var right := RetireEarlierOf(ReceivedWith(s, arrived, now), k.0, k.1, now)[k := StoredEarly(s, k, now)];
    assert left.Keys == right.Keys;
    forall j | j in left ensures left[j] == right[j] {
      OvertakenNext(arrived, k, j);
      if j in arrived && j.0 == k.0 && j.1 < k.1 {
        assert JudgeEarly(s, k, now).Store? && JudgeEarly(s, j, now).Store?;
      }
    }
  }

  lemma OvertakenNext(arrived: set<SenderAt>, k: SenderAt, j: SenderAt)
    ensures IsOvertaken(arrived + {k}, j) <==> IsOvertaken(arrived, j) || (k.0 == j.0 && j.1 < k.1)
  {
    if k.0 == j.0 && j.1 < k.1 {
      assert k in arrived + {k};
    }
    if IsOvertaken(arrived, j) {
      var later :| later in arrived && later.0 == j.0 && j.1 < later.1;
      assert later in arrived + {k};
    }
  }

  lemma NothingAbsorbed(s: Keys, now: Time)
    ensures Absorb(s, {}, now) == s.(early := map[])
  {
    var arrived := Arrived(s, {}, now);
    assert arrived == {};
    assert StillEarly(s, {}, now) == map[];
    assert CachedWithout(s.recvKeys, {}) == s.recvKeys;
    assert ReceivedWith(s, {}, now) == s.received;
  }

  // ---- Who is trusted ------------------------------------------------------------------

  lemma {:induction false} TrustedAreListed(s: Keys, room: RoomId, peers: seq<Peer>, unix: nat, u: UserId)
    requires u in Trusted(s, room, peers, unix)
    ensures exists p :: p in peers && p.user == u && IsTrusted(s, room, p, unix) && Trusted(s, room, peers, unix)[u] == KeysOf(p)
  {
    var last := peers[|peers| - 1];
    assert last in peers;
    if !(IsTrusted(s, room, last, unix) && last.user == u) {
      var rest := peers[..|peers| - 1];
      TrustedAreListed(s, room, rest, unix, u);
      var p :| p in rest && p.user == u && IsTrusted(s, room, p, unix) && Trusted(s, room, rest, unix)[u] == KeysOf(p);
      assert p in peers;
    }
  }

  lemma {:induction false} OthersAre(me: UserId, peers: seq<Peer>)
    ensures forall p :: p in Others(me, peers) <==> p in peers && p.user != me
  {
    if peers != [] {
      OthersAre(me, peers[1..]);
      assert forall p :: p in peers <==> p == peers[0] || p in peers[1..];
    }
  }

  lemma {:induction false} TrackIdsOf(peers: seq<Peer>, p: Peer, id: MediaId)
    requires p in peers && id in TrackIds(p.tracks)
    ensures id in AllTrackIds(peers)
  {
    if p != peers[0] {
      TrackIdsOf(peers[1..], p, id);
    }
  }

  lemma NoneInBoth(a: seq<int>, b: seq<int>)
    requires Distinct(a + b)
    ensures forall x :: x in a ==> x !in b
  {
    forall i, j | 0 <= i < |a| && 0 <= j < |b| ensures a[i] != b[j] {
      assert (a + b)[i] != (a + b)[|a| + j];
    }
  }

  /** No media id is on two peers of a list without clashes. */
  lemma {:induction false} TracksAreDisjoint(peers: seq<Peer>, p: Peer, q: Peer, id: MediaId)
    requires Distinct(AllTrackIds(peers)) && p in peers && q in peers && p != q
    ensures !(id in TrackIds(p.tracks) && id in TrackIds(q.tracks))
  {
    var first, rest := TrackIds(peers[0].tracks), AllTrackIds(peers[1..]);
    assert Distinct(rest) by {
      forall i, j | 0 <= i < j < |rest| ensures rest[i] != rest[j] {
        assert (first + rest)[|first| + i] != (first + rest)[|first| + j];
      }
    }
    if id in TrackIds(p.tracks) && id in TrackIds(q.tracks) {
      if p == peers[0] || q == peers[0] {
        TrackIdsOf(peers[1..], if p == peers[0] then q else p, id);
        NoneInBoth(first, rest);
      } else {
        TracksAreDisjoint(peers[1..], p, q, id);
      }
    }
  }

  lemma NoSharedIds(s: Keys, room: RoomId, peers: seq<Peer>, unix: nat, u: UserId, w: UserId, id: MediaId)
    requires !IsInvalid(s, peers)
    requires var t := Trusted(s, room, peers, unix);
             u in t && w in t && id in TrackIds(t[u].tracks) && id in TrackIds(t[w].tracks)
    ensures u == w
  {
    var t := Trusted(s, room, peers, unix);
    TrustedAreListed(s, room, peers, unix, u);
    TrustedAreListed(s, room, peers, unix, w);
    var p :| p in peers && p.user == u && IsTrusted(s, room, p, unix) && t[u] == KeysOf(p);
    var q :| q in peers && q.user == w && IsTrusted(s, room, q, unix) && t[w] == KeysOf(q);
    OthersAre(s.me, peers);
    var others := Others(s.me, peers);
    var mine, theirs := MyTrackIds(s), AllTrackIds(others);
    assert Distinct(theirs) by {
      forall i, j | 0 <= i < j < |theirs| ensures theirs[i] != theirs[j] {
        assert (mine + theirs)[|mine| + i] != (mine + theirs)[|mine| + j];
      }
    }
    if u != w {
      TracksAreDisjoint(others, p, q, id);
    }
  }

  lemma OwnersFollow(peers: KeyPeers)
    requires forall u, w, id :: u in peers && w in peers && id in TrackIds(peers[u].tracks) && id in TrackIds(peers[w].tracks) ==> u == w
    ensures OwnersAreTrue(peers, Owners(peers))
  {
    var owners := Owners(peers);
    forall u, id | u in peers && id in TrackIds(peers[u].tracks) ensures id in owners && owners[id] == u {
      assert u in SendersOn(peers, id);
      assert id in IdsOn(peers);
    }
  }

  lemma TrustedOwners(s: Keys, room: RoomId, peers: seq<Peer>, unix: nat)
    requires !IsInvalid(s, peers)
    ensures OwnersAreTrue(Trusted(s, room, peers, unix), Owners(Trusted(s, room, peers, unix)))
  {
    var t := Trusted(s, room, peers, unix);
    forall u, w, id | u in t && w in t && id in TrackIds(t[u].tracks) && id in TrackIds(t[w].tracks) ensures u == w {
      NoSharedIds(s, room, peers, unix, u, w, id);
    }
    OwnersFollow(t);
  }

  // ---- Retiring ------------------------------------------------------------------------

  /** Nothing but the start of some grace periods. */
  ghost predicate OnlyRetired(before: ReceivedKeys, after: ReceivedKeys, now: Time) {
    && after.Keys == before.Keys
    && forall k :: k in before ==> after[k] == before[k] || after[k] == Retired(before[k], now)
  }

  lemma RetiringKeeps(s: Keys, after: ReceivedKeys, clock: Time, now: Time)
    requires Core(s, clock) && OnlyRetired(s.received, after, now) && clock <= now
    ensures Core(s.(received := after), now)
  {
  }

  // ---- Room states ---------------------------------------------------------------------

  lemma TrustedOrNobody(s: Keys, room: RoomId, peers: seq<Peer>, now: Time, unix: nat)
    ensures var t := TrustState(s, room, peers, now, unix); OwnersAreTrue(t.peers, t.owners)
  {
    if IsInvalid(s, peers) {
      assert OwnersAreTrue(map[], Owners(map[]));
    } else {
      var t := s.(unwrappable := Listed(s.unwrappable, peers));
      assert !IsInvalid(t, peers);
      TrustedOwners(t, room, peers, unix);
    }
  }

  lemma TrustStateKeeps(s: Keys, room: RoomId, peers: seq<Peer>, clock: Time, now: Time, unix: nat)
    requires Core(s, clock) && HasSecret(s) && clock <= now
    ensures Core(TrustState(s, room, peers, now, unix), now) && HasSecret(TrustState(s, room, peers, now, unix))
    ensures var t := TrustState(s, room, peers, now, unix); t.room == s.room && t.epoch == s.epoch
  {
    hide IsInvalid, Trusted, Owners, Listed, Departed, DeriveAll;
    TrustedOrNobody(s, room, peers, now, unix);
    var t := TrustState(s, room, peers, now, unix);
    RetiringKeeps(s, t.received, clock, now);
    assert Core(t, now);
  }

  lemma StartEpochKeeps(s: Keys, epoch: Epoch, clock: Time, now: Time)
    requires Core(s, clock) && s.room.Some? && s.epoch <= epoch && clock <= now
    ensures Core(StartEpoch(s, epoch, now), now) && HasSecret(StartEpoch(s, epoch, now))
  {
    hide Core;
    if epoch == s.epoch {
      LaterClock(s, clock, now);
      SameCore(s, StartEpoch(s, epoch, now), now);
    } else {
      EpochMoves(s, epoch, clock, now);
      SameCore(MovedTo(s, epoch, now), StartEpoch(s, epoch, now), now);
    }
  }

  function MovedTo(s: Keys, epoch: Epoch, now: Time): Keys {
    s.(received := RetireBefore(s.received, epoch, now), epoch := epoch, epochSince := now,
       floors := if s.room.Some? then Raise(s.floors, s.me, s.room.value, epoch) else s.floors)
  }

  lemma EpochMoves(s: Keys, epoch: Epoch, clock: Time, now: Time)
    requires Core(s, clock) && s.epoch <= epoch && clock <= now
    ensures Core(MovedTo(s, epoch, now), now)
  {
    hide Raise;
    var t := MovedTo(s, epoch, now);
    RetiringKeeps(s, t.received, clock, now);
    forall k | k in t.received && k.1 < epoch ensures t.received[k].retireAt.Some? && t.received[k].retireAt.value <= now + OLD_KEY_GRACE {
      assert k in s.received;
    }
    assert Core(t, now);
  }

  lemma WrapKeeps(s: Keys, room: RoomId, clock: Time)
    requires Core(s, clock) && HasSecret(s)
    requires s.mySecret.Some? && (s.wrappedTo == {} || s.wrappedTo == PeerSet(s.peers))
    ensures Core(WrapForNewPeers(s, room).0, clock) && Settled(WrapForNewPeers(s, room).0)
  {
    hide Core;
    WrapSettles(s, room);
    WrapKeepsCore(s, room, clock);
  }

  lemma OwnersStayTrue(peers: KeyPeers, owners: map<MediaId, UserId>, refused: set<UserId>)
    requires OwnersAreTrue(peers, owners)
    ensures OwnersAreTrue(peers - refused, OwnersLeft(owners, refused))
  {
  }

  lemma WrapKeepsCore(s: Keys, room: RoomId, clock: Time)
    requires Core(s, clock) && HasSecret(s)
    ensures Core(WrapForNewPeers(s, room).0, clock) && HasSecret(WrapForNewPeers(s, room).0)
  {
    hide Refused, WrapAll, GivenTo, RefusedKeys, OwnersLeft, OwnersAreTrue, CacheIsTrue, OldOnesRetire, RetireInTime, DeriveAll;
    OwnersStayTrue(s.peers, s.owners, Refused(s));
    assert Core(WrapForNewPeers(s, room).0, clock);
  }

  lemma WrapSettles(s: Keys, room: RoomId)
    requires s.mySecret.Some? && (s.wrappedTo == {} || s.wrappedTo == PeerSet(s.peers))
    ensures var t := WrapForNewPeers(s, room).0; t.wrappedTo == PeerSet(t.peers)
  {
    hide WrapAll, RefusedKeys, PeerSet, GivenTo;
    var t := WrapForNewPeers(s, room).0;
    if s.wrappedTo == {} {
      forall x: (UserId, PublicKey) ensures x in t.wrappedTo <==> x in PeerSet(t.peers) {
        PeerSetHas(t.peers, x.0, x.1);
        GivenToHas(s, x.0, x.1);
      }
      SameSet(t.wrappedTo, PeerSet(t.peers));
    } else {
      NobodyIsNew(s);
      assert s.peers - {} == s.peers;
    }
  }

  lemma PeerSetHas(peers: KeyPeers, u: UserId, key: PublicKey)
    ensures (u, key) in PeerSet(peers) <==> u in peers && peers[u].encryptionKey == key
  {
    if u in peers && peers[u].encryptionKey == key {
      assert (u, peers[u].encryptionKey) in PeerSet(peers);
    }
  }

  lemma GivenToHas(s: Keys, u: UserId, key: PublicKey)
    ensures (u, key) in GivenTo(s) <==> u in s.peers && s.peers[u].encryptionKey == key && IsNew(s, u) && key !in s.weak
  {
    if u in s.peers && s.peers[u].encryptionKey == key && u in Recipients(s) {
      assert (u, s.peers[u].encryptionKey) in GivenTo(s);
    }
  }

  lemma NobodyIsNew(s: Keys)
    requires s.wrappedTo == PeerSet(s.peers)
    ensures Refused(s) == {} && Recipients(s) == {} && GivenTo(s) == {}
  {
    forall u ensures !IsNew(s, u) {
      if u in s.peers {
        assert (u, s.peers[u].encryptionKey) in PeerSet(s.peers);
      }
    }
  }

  lemma RekeyKeeps(s: Keys, room: RoomId, epoch: Epoch, clock: Time, now: Time)
    requires Core(s, clock) && HasSecret(s) && s.room == Some(room) && s.epoch <= epoch && clock <= now
    ensures Core(Rekey(s, room, epoch, now).0, now) && Settled(Rekey(s, room, epoch, now).0)
  {
    hide Core;
    if NeedsNewSecret(s, epoch) {
      StartEpochKeeps(s, epoch, clock, now);
      WrapKeeps(StartEpoch(s, epoch, now), room, now);
    } else {
      LaterClock(s, clock, now);
      WrapKeeps(s, room, now);
    }
  }

  lemma LaterClock(s: Keys, clock: Time, now: Time)
    requires Core(s, clock) && clock <= now
    ensures Core(s, now)
  {
  }

  lemma AbsorbedCache(s: Keys, arrived: set<SenderAt>, now: Time)
    requires CacheIsTrue(s.received, s.recvKeys)
    requires forall k :: k in arrived ==> k in s.early && JudgeEarly(s, k, now).Store?
    ensures CacheIsTrue(ReceivedWith(s, arrived, now), CachedWithout(s.recvKeys, arrived))
  {
    var received, cached := ReceivedWith(s, arrived, now), CachedWithout(s.recvKeys, arrived);
    forall k | k in cached ensures
      (cached[k].0, k.1) in received && cached[k].1 == Derived(received[(cached[k].0, k.1)].secret, k.0) {
      assert (s.recvKeys[k].0, k.1) in s.received;
    }
  }

  lemma AbsorbedReceived(s: Keys, arrived: set<SenderAt>, now: Time)
    requires StoredAreOurs(s) && OldOnesRetire(s.received, s.epoch, s.epochSince) && RetireInTime(s.received, now) && s.epochSince <= now
    requires forall k :: k in arrived ==> k in s.early && JudgeEarly(s, k, now).Store?
    ensures var received := ReceivedWith(s, arrived, now);
      && StoredAreOurs(s.(received := received))
      && OldOnesRetire(received, s.epoch, s.epochSince)
      && RetireInTime(received, now)
  {
    var received := ReceivedWith(s, arrived, now);
    forall k | k in received ensures
      && k.1 <= s.epoch && s.room.Some? && (s.floor.Some? ==> s.floor.value < k.1)
      && (k.1 < s.epoch ==> received[k].retireAt.Some? && received[k].retireAt.value <= s.epochSince + OLD_KEY_GRACE)
      && (received[k].retireAt.Some? ==> received[k].retireAt.value <= now + OLD_KEY_GRACE)
    {
      if k in arrived {
        assert JudgeEarly(s, k, now).Store?;
      }
    }
  }

  lemma AbsorbedEarly(s: Keys, now: Time)
    requires |s.early| <= MAX_EARLY
    ensures |TakeEarly(s, now).early| <= MAX_EARLY
    ensures EarlyOnesWait(TakeEarly(s, now))
  {
    var t := TakeEarly(s, now);
    Fewer(t.early.Keys, s.early.Keys);
    forall k | k in t.early ensures s.room.None? || k.0 !in s.peers || s.epoch < k.1 {
      assert JudgeEarly(s, k, now).Hold?;
    }
  }

  lemma TakeEarlyKeeps(s: Keys, now: Time)
    requires Core(s, now) && Settled(s)
    ensures Inv(TakeEarly(s, now), now)
  {
    var arrived := Arrived(s, s.early.Keys, now);
    AbsorbedCache(s, arrived, now);
    AbsorbedReceived(s, arrived, now);
    AbsorbedEarly(s, now);
    assert Core(TakeEarly(s, now), now);
  }

  lemma PeersChangedKeeps(s: Keys, room: RoomId, epoch: Epoch, peers: seq<Peer>, clock: Time, now: Time, unix: nat)
    requires Core(s, clock) && HasSecret(s) && clock <= now
    requires (s.room == Some(room) && s.epoch <= epoch) || Inv(s, clock)
    ensures Inv(PeersChanged(s, room, epoch, peers, now, unix).0, now)
  {
    hide TrustState, Rekey, TakeEarly, Core, Settled, EarlyOnesWait;
    if s.room == Some(room) && s.epoch <= epoch {
      var trusted := TrustState(s, room, peers, now, unix);
      TrustStateKeeps(s, room, peers, clock, now, unix);
      RekeyKeeps(trusted, room, epoch, now, now);
      var rekeyed := Rekey(trusted, room, epoch, now).0;
      TakeEarlyKeeps(rekeyed, now);
      SameInv(TakeEarly(rekeyed, now), PeersChanged(s, room, epoch, peers, now, unix).0, now);
    } else {
      LaterClock(s, clock, now);
      SameInv(s, PeersChanged(s, room, epoch, peers, now, unix).0, now);
    }
  }

  // ---- The other steps -----------------------------------------------------------------

  lemma PresenceKeeps(s: Keys, user: UserId, room: Option<RoomId>, clock: Time)
    requires Inv(s, clock)
    ensures Inv(SetPresence(s, user, room).0, clock)
  {
    hide Core, DeriveAll, PeerSet;
    SameCore(s, SetPresence(s, user, room).0, clock);
  }

  lemma ReapplyKeeps(s: Keys, clock: Time, now: Time, unix: nat)
    requires Inv(s, clock) && clock <= now
    ensures Inv(ReapplyPeers(s, now, unix).0, now)
  {
    hide Core;
    if s.room.None? {
      LaterClock(s, clock, now);
    } else {
      PeersChangedKeeps(s, s.room.value, s.epoch, s.roomPeers, clock, now, unix);
    }
  }

  lemma PlaceKeeps(s: Keys, room: Option<RoomId>, tracks: Option<Tracks>, clock: Time, now: Time)
    requires Inv(s, clock) && clock <= now
    ensures Inv(Place(s, room, tracks), now)
  {
    var t := Place(s, room, tracks);
    if room != s.room {
      assert Core(t, now);
    } else {
      LaterClock(s, clock, now);
      SameCore(s, t, now);
    }
  }

  lemma PlacementKeeps(s: Keys, room: Option<RoomId>, epoch: Epoch, tracks: Option<Tracks>, peers: seq<Peer>,
                       clock: Time, now: Time, unix: nat)
    requires Inv(s, clock) && clock <= now
    ensures Inv(ApplyPlacement(s, room, epoch, tracks, peers, now, unix).0, now)
  {
    hide Core;
    LaterClock(s, clock, now);
    if !(room.Some? && room == s.room && epoch < s.epoch) {
      var placed := Place(s, room, tracks);
      PlaceKeeps(s, room, tracks, clock, now);
      SameCore(placed, placed.(stashed := None), now);
      if room.Some? {
        PeersChangedKeeps(placed, room.value, epoch, peers, now, now, unix);
        CatchUpKeeps(PeersChanged(placed, room.value, epoch, peers, now, unix).0, room.value, epoch, now, unix);
      }
    }
  }

  lemma CatchUpKeeps(s: Keys, room: RoomId, epoch: Epoch, now: Time, unix: nat)
    requires Inv(s, now)
    ensures Inv(CatchUp(s, room, epoch, now, unix).0, now)
  {
    hide Core;
    var caught := s.(stashed := None);
    SameCore(s, caught, now);
    if s.stashed.Some? {
      PeersChangedKeeps(caught, room, s.stashed.value.epoch, s.stashed.value.peers, now, now, unix);
    }
  }

  lemma StoreKeeps(s: Keys, k: SenderAt, r: Received, now: Time)
    requires Core(s, now)
    requires s.room.Some? && k.1 <= s.epoch && (s.floor.Some? ==> s.floor.value < k.1)
    requires r.retireAt == if k.1 < s.epoch then Some(s.epochSince + OLD_KEY_GRACE) else None
    ensures Core(StoreKey(s, k, r, now), now)
  {
    hide CacheIsTrue, OwnersAreTrue;
    StoredCache(s.received, s.recvKeys, k, r, now);
    assert CacheIsTrue(StoreKey(s, k, r, now).received, StoreKey(s, k, r, now).recvKeys);
  }

  lemma StoredCache(received: ReceivedKeys, cached: CachedKeys, k: SenderAt, r: Received, now: Time)
    requires CacheIsTrue(received, cached)
    ensures CacheIsTrue(RetireEarlierOf(received, k.0, k.1, now)[k := r], Forget(cached, k.0, k.1))
  {
    var after := Forget(cached, k.0, k.1);
    forall c | c in after ensures (after[c].0, c.1) != k && (after[c].0, c.1) in received {
    }
  }

  lemma SenderKeyKeeps(s: Keys, sender: UserId, epoch: Epoch, blob: Blob, clock: Time, now: Time)
    requires Inv(s, clock) && clock <= now
    ensures Inv(SenderKey(s, sender, epoch, blob, now).0, now)
  {
    hide Core;
    LaterClock(s, clock, now);
    match Judge(s, sender, epoch, blob, now)
    case Refuse(_) =>
    case Hold =>
      if |s.early| < MAX_EARLY || (sender, epoch) in s.early {
        HoldKeeps(s, sender, epoch, blob, now);
      }
    case Store(secret, retireAt) => StoreKeeps(s, (sender, epoch), Received(secret, retireAt), now);
  }

  lemma HoldKeeps(s: Keys, sender: UserId, epoch: Epoch, blob: Blob, now: Time)
    requires Inv(s, now) && (s.room.None? || sender !in s.peers || s.epoch < epoch)
    requires |s.early| < MAX_EARLY || (sender, epoch) in s.early
    ensures Inv(s.(early := s.early[(sender, epoch) := (now, blob)]), now)
  {
    var early := s.early[(sender, epoch) := (now, blob)];
    if (sender, epoch) in s.early {
      assert early.Keys == s.early.Keys;
    } else {
      assert early.Keys == s.early.Keys + {(sender, epoch)};
    }
  }

  lemma RecvKeyKeeps(s: Keys, id: MediaId, epoch: Epoch, clock: Time)
    requires Inv(s, clock)
    ensures Inv(RecvKey(s, id, epoch).0, clock)
  {
  }

  lemma TickKeeps(s: Keys, clock: Time, now: Time)
    requires Inv(s, clock) && clock <= now
    ensures Inv(Tick(s, now), now)
  {
    Fewer(FreshEarly(s.early, now).Keys, s.early.Keys);
  }

  lemma RenewKeeps(s: Keys, encryption: PublicKey, clock: Time, now: Time)
    requires Inv(s, clock)
    ensures Inv(ReplaceEncryption(s, encryption, now), clock)
  {
    hide Core;
    SameCore(s, ReplaceEncryption(s, encryption, now), clock);
  }

  lemma NewKeeps(me: UserId, server: Server, weak: set<PublicKey>, encryption: PublicKey, floors: Floors, now: Time, serial: nat)
    ensures Inv(New(me, server, weak, encryption, floors, now, serial), now)
  {
  }
}
