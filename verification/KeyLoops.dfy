/** What the loops of the key manager do, one turn at a time. */
module KeyLoops {
  import opened Collections
  import opened KeyModel
  import opened KeyInvariants

  // ---- Retiring and checking -----------------------------------------------------------

  type Checked = map<UserId, (PublicKey, SignedKey, bool)>

  /** Each answer kept is that of a check: whether this identity signed that key for this server and
      user. */
  ghost predicate ChecksHold(server: Server, checked: Checked) {
    forall u :: u in checked ==>
      var (identityKey, signed, held) := checked[u];
      held == (signed.sig == By(identityKey, server, u, signed.notAfter, signed.key))
  }

  /** Of the secrets under `keys`, those `which` picks are given a time to go, if they have
      none. */
  function RetireAmong(received: ReceivedKeys, keys: set<SenderAt>, which: SenderAt -> bool, now: Time): ReceivedKeys {
    map k | k in received :: if k in keys && which(k) then Retired(received[k], now) else received[k]
  }

  lemma RetireOneMore(received: ReceivedKeys, keys: set<SenderAt>, k: SenderAt, which: SenderAt -> bool, now: Time)
    requires k in received && k !in keys
    ensures var done := RetireAmong(received, keys, which, now);
      RetireAmong(received, keys + {k}, which, now) == if which(k) then done[k := Retired(received[k], now)] else done
  {
    var done := RetireAmong(received, keys, which, now);
    SameMap(RetireAmong(received, keys + {k}, which, now), if which(k) then done[k := Retired(received[k], now)] else done);
  }

  lemma RetireNone(received: ReceivedKeys, which: SenderAt -> bool, now: Time)
    ensures RetireAmong(received, {}, which, now) == received
  {
    SameMap(RetireAmong(received, {}, which, now), received);
  }

  lemma OneMoreNew(ids: seq<int>, k: nat, seen: set<int>)
    requires k < |ids| && Distinct(ids[..k]) && seen == IdSet(ids[..k])
    ensures Distinct(ids[..k + 1]) <==> ids[k] !in seen
    ensures IdSet(ids[..k + 1]) == seen + {ids[k]}
  {
    var more := ids[..k + 1];
    forall id ensures id in IdSet(more) <==> id in seen + {ids[k]} {
      if id in seen {
        var i :| 0 <= i < k && ids[..k][i] == id;
        assert more[i] == id;
      }
      if id == ids[k] {
        assert more[k] == id;
      }
      if id in IdSet(more) && id != ids[k] {
        var i :| 0 <= i < k + 1 && more[i] == id;
        assert ids[..k][i] == id;
      }
    }
    SameSet(IdSet(more), seen + {ids[k]});
    if ids[k] in seen {
      var i :| 0 <= i < k && ids[..k][i] == ids[k];
      assert more[i] == more[k];
    }
    if ids[k] !in seen {
      forall i, j | 0 <= i < j < k + 1 ensures more[i] != more[j] {
        if j < k {
          assert ids[..k][i] != ids[..k][j];
        } else {
          assert ids[..k][i] in IdSet(ids[..k]);
        }
      }
    }
  }

  /** Whether no id appears twice, by putting one after another in a set. */
  method AllDiffer(ids: seq<int>) returns (differ: bool)
    ensures differ <==> Distinct(ids)
  {
    var seen: set<int> := {};
    var k := 0;
    NoIds(ids);
    while k < |ids|
      invariant 0 <= k <= |ids|
      invariant Distinct(ids[..k]) && seen == IdSet(ids[..k])
    {
      OneMoreNew(ids, k, seen);
      if ids[k] in seen {
        NotDistinct(ids, k + 1);
        return false;
      }
      seen := seen + {ids[k]};
      k := k + 1;
    }
    assert ids[..k] == ids;
    differ := true;
  }

  lemma NoIds(ids: seq<int>)
    ensures IdSet(ids[..0]) == {} && Distinct(ids[..0])
  {
    forall id ensures id !in IdSet(ids[..0]) {
    }
    SameSet(IdSet(ids[..0]), {});
  }

  lemma NotDistinct(ids: seq<int>, k: nat)
    requires k <= |ids| && !Distinct(ids[..k])
    ensures !Distinct(ids)
  {
    var i, j :| 0 <= i < j < k && ids[..k][i] == ids[..k][j];
    assert ids[i] == ids[j];
  }

  lemma TrustOneMore(s: Keys, room: RoomId, peers: seq<Peer>, k: nat, unix: nat)
    requires k < |peers|
    ensures var before := Trusted(s, room, peers[..k], unix);
      Trusted(s, room, peers[..k + 1], unix) ==
      if IsTrusted(s, room, peers[k], unix) then before[peers[k].user := KeysOf(peers[k])] else before
  {
    assert peers[..k + 1][..k] == peers[..k];
  }

  /** Who sends on each id, with only some of the peers taken in. */
  function OwnersAmong(peers: KeyPeers, users: set<UserId>): map<MediaId, UserId> {
    Owners(Among(peers, users))
  }

  function Among(peers: KeyPeers, users: set<UserId>): KeyPeers {
    map u | u in peers && u in users :: peers[u]
  }

  function Own(owners: map<MediaId, UserId>, ids: seq<MediaId>, u: UserId): map<MediaId, UserId> {
    map id | id in owners.Keys + IdSet(ids) :: if id in ids then u else owners[id]
  }

  lemma OwnNext(owners: map<MediaId, UserId>, ids: seq<MediaId>, k: nat, u: UserId)
    requires k < |ids|
    ensures Own(owners, ids[..k + 1], u) == Own(owners, ids[..k], u)[ids[k] := u]
  {
    var less, more := ids[..k], ids[..k + 1];
    assert more == less + [ids[k]];
    forall id ensures id in IdSet(more) <==> id in IdSet(less) || id == ids[k] {
      if id in IdSet(more) {
        var i :| 0 <= i < |more| && more[i] == id;
        assert i < k ==> less[i] == id;
      }
      if id in IdSet(less) {
        var i :| 0 <= i < |less| && less[i] == id;
        assert more[i] == id;
      }
      assert more[k] == ids[k];
    }
    var left, right := Own(owners, more, u), Own(owners, less, u)[ids[k] := u];
    forall id ensures (id in left <==> id in right) && (id in left ==> left[id] == right[id]) {
      assert id in more <==> id in less || id == ids[k];
      assert id in less <==> id in IdSet(less);
    }
    SameMap(left, right);
  }

  lemma OwnNone(owners: map<MediaId, UserId>, ids: seq<MediaId>, u: UserId)
    ensures Own(owners, ids[..0], u) == owners
  {
    NoIds(ids);
    SameMap(Own(owners, ids[..0], u), owners);
  }

  lemma OwnersNext(peers: KeyPeers, users: set<UserId>, u: UserId)
    requires u in peers && u !in users && forall v :: v in users ==> v < u
    ensures OwnersAmong(peers, users + {u}) == Own(OwnersAmong(peers, users), TrackIds(peers[u].tracks), u)
  {
    hide Owners;
    var less, more, ids := Among(peers, users), Among(peers, users + {u}), TrackIds(peers[u].tracks);
    var left, right := Owners(more), Own(Owners(less), ids, u);
    forall id ensures (id in left <==> id in right) && (id in left ==> left[id] == right[id]) {
      OwnerIs(less, id);
      OwnerIs(more, id);
      assert id in ids <==> id in IdSet(ids);
      if id in ids {
        assert u in SendersOn(more, id);
      } else {
        assert SendersOn(more, id) == SendersOn(less, id) by {
          forall v ensures v in SendersOn(more, id) <==> v in SendersOn(less, id) {
          }
          SameSet(SendersOn(more, id), SendersOn(less, id));
        }
      }
    }
    SameMap(left, right);
  }

  lemma OwnerIs(peers: KeyPeers, id: MediaId)
    ensures id in Owners(peers) <==> SendersOn(peers, id) != {}
    ensures id in Owners(peers) ==> Owners(peers)[id] == Max(SendersOn(peers, id))
  {
    if SendersOn(peers, id) != {} {
      var u: int := Pick(SendersOn(peers, id));
      assert u in SendersOn(peers, id);
      assert id in IdsOn(peers);
    }
  }

  lemma OwnersOfNone(peers: KeyPeers)
    ensures OwnersAmong(peers, {}) == map[]
  {
    forall id ensures id !in OwnersAmong(peers, {}) {
      OwnerIs(Among(peers, {}), id);
      forall u ensures u !in SendersOn(Among(peers, {}), id) {
      }
      SameSet(SendersOn(Among(peers, {}), id), {});
    }
    Empty(OwnersAmong(peers, {}));
  }

  lemma OwnersOfAll(peers: KeyPeers)
    ensures OwnersAmong(peers, peers.Keys) == Owners(peers)
  {
    SameMap(Among(peers, peers.Keys), peers);
  }

  /** The wraps made, with only some of the peers taken in. */
  function WrapAmong(s: Keys, room: RoomId, secret: Secret, users: set<UserId>): map<UserId, Blob> {
    map u | u in s.peers && u in users && u in Recipients(s) :: SealFor(s, room, secret, u)
  }

  function RefusedAmong(s: Keys, users: set<UserId>): map<UserId, PublicKey> {
    map u | u in s.peers && u in users && u in Refused(s) :: s.peers[u].encryptionKey
  }

  lemma WrapNext(s: Keys, room: RoomId, secret: Secret, users: set<UserId>, u: UserId)
    requires u in s.peers
    ensures var key := s.peers[u].encryptionKey;
            var wrapped, refused := WrapAmong(s, room, secret, users), RefusedAmong(s, users);
      && WrapAmong(s, room, secret, users + {u}) ==
         (if (u, key) !in s.wrappedTo && key !in s.weak then wrapped[u := SealFor(s, room, secret, u)] else wrapped)
      && RefusedAmong(s, users + {u}) == if (u, key) !in s.wrappedTo && key in s.weak then refused[u := key] else refused
  {
    hide SealFor;
    var key := s.peers[u].encryptionKey;
    var wrapped, refused := WrapAmong(s, room, secret, users), RefusedAmong(s, users);
    SameMap(WrapAmong(s, room, secret, users + {u}),
            if (u, key) !in s.wrappedTo && key !in s.weak then wrapped[u := SealFor(s, room, secret, u)] else wrapped);
    SameMap(RefusedAmong(s, users + {u}),
            if (u, key) !in s.wrappedTo && key in s.weak then refused[u := key] else refused);
  }

  lemma WrapNone(s: Keys, room: RoomId, secret: Secret)
    ensures WrapAmong(s, room, secret, {}) == map[] && RefusedAmong(s, {}) == map[]
  {
    Empty(WrapAmong(s, room, secret, {}));
    Empty(RefusedAmong(s, {}));
  }

  lemma WrapEveryone(s: Keys, room: RoomId, secret: Secret)
    ensures WrapAmong(s, room, secret, s.peers.Keys) == WrapAll(s, room, secret)
    ensures RefusedAmong(s, s.peers.Keys) == RefusedKeys(s.peers, Refused(s))
    ensures RefusedKeys(s.peers, Refused(s)).Keys == Refused(s)
  {
    hide SealFor;
    SameMap(WrapAmong(s, room, secret, s.peers.Keys), WrapAll(s, room, secret));
    SameMap(RefusedAmong(s, s.peers.Keys), RefusedKeys(s.peers, Refused(s)));
    SameSet(RefusedKeys(s.peers, Refused(s)).Keys, Refused(s));
  }

  /** The wrapped ones that are still peers, with the key each was wrapped to. */
  function StillPeers(peers: KeyPeers, users: set<UserId>): set<(UserId, PublicKey)> {
    set u | u in peers && u in users :: (u, peers[u].encryptionKey)
  }

  lemma GivenAreStillPeers(s: Keys, room: RoomId, secret: Secret)
    ensures StillPeers(s.peers - Refused(s), WrapAll(s, room, secret).Keys) == GivenTo(s)
  {
    hide SealFor;
    forall x: (UserId, PublicKey) ensures x in StillPeers(s.peers - Refused(s), WrapAll(s, room, secret).Keys) <==> x in GivenTo(s) {
      GivenToHas(s, x.0, x.1);
      var peers := s.peers - Refused(s);
      if x.0 in peers && x.0 in WrapAll(s, room, secret) {
        assert (x.0, peers[x.0].encryptionKey) in StillPeers(peers, WrapAll(s, room, secret).Keys);
      }
    }
    SameSet(StillPeers(s.peers - Refused(s), WrapAll(s, room, secret).Keys), GivenTo(s));
  }

  function Only<V>(m: map<UserId, V>, users: set<UserId>): map<UserId, V> {
    map u | u in m && u in users :: m[u]
  }

  /** The state once the refused among `out` are left out. */
  function LeftOut(s: Keys, refused: map<UserId, PublicKey>, out: set<UserId>): Keys {
    s.(unwrappable := s.unwrappable + Only(refused, out), peers := s.peers - out, owners := OwnersLeft(s.owners, out))
  }

  function LeftOutOne(s: Keys, u: UserId, key: PublicKey): Keys {
    s.(unwrappable := s.unwrappable[u := key], peers := s.peers - {u}, owners := OwnersLeft(s.owners, {u}))
  }

  lemma LeaveOutNext(s: Keys, refused: map<UserId, PublicKey>, out: set<UserId>, u: UserId)
    requires u in refused && u !in out
    ensures var t := LeftOut(s, refused, out);
      LeftOut(s, refused, out + {u}) == LeftOutOne(t, u, refused[u])
  {
    var t := LeftOut(s, refused, out);
    SameMap(s.unwrappable + Only(refused, out + {u}), t.unwrappable[u := refused[u]]);
    SameMap(s.peers - (out + {u}), t.peers - {u});
    SameMap(OwnersLeft(s.owners, out + {u}), OwnersLeft(t.owners, {u}));
  }

  lemma LeaveOutNone(s: Keys, refused: map<UserId, PublicKey>)
    ensures LeftOut(s, refused, {}) == s
  {
    Empty(Only(refused, {}));
    WithNothing(s.unwrappable, s.wrappedTo);
    WithNothing(s.peers, s.wrappedTo);
    SameMap(OwnersLeft(s.owners, {}), s.owners);
  }

  lemma LeaveOutAll(s: Keys, refused: map<UserId, PublicKey>)
    ensures Only(refused, refused.Keys) == refused
  {
    SameMap(Only(refused, refused.Keys), refused);
  }

  // ---- Early keys ----------------------------------------------------------------------

  /** An early key judged again, unless it is too old. */
  function JudgedAgain(s: Keys, k: SenderAt, held: (Time, Blob), now: Time): Keys {
    if IsFresh(held.0, now) then SenderKeyAt(s, k.0, k.1, held.1, held.0, now).0 else s
  }

  lemma JudgeNext(s: Keys, done: set<SenderAt>, k: SenderAt, now: Time)
    requires done <= s.early.Keys && k in s.early && k !in done && |s.early| <= MAX_EARLY
    ensures Absorb(s, done + {k}, now) == JudgedAgain(Absorb(s, done, now), k, s.early[k], now)
  {
    hide Absorb, SenderKeyAt;
    AbsorbNext(s, done, k, now);
  }
}
