/**
 Whom a client trusts with its secret, written on what the server listed: exactly who is trusted
 after a room state, and what every trusted peer and every published wrap of a run goes back to.
 */
module KeyTrust {
  import opened Collections
  import opened KeyModel
  import opened KeyInvariants
  import opened KeyTheorems
  import opened KeyRuns

  // ---- Lists that clash ------------------------------------------------------------------

  /** The ids of tracks: the microphone's, and then picture and sound of each share. */
  lemma {:induction false} TrackIdsAre(tracks: Tracks, k: nat)
    ensures |TrackIds(tracks)| == 1 + 2 * |tracks.shares| && TrackIds(tracks)[0] == tracks.mic
    ensures k < |tracks.shares| ==>
      TrackIds(tracks)[1 + 2 * k] == tracks.shares[k].video && TrackIds(tracks)[2 + 2 * k] == tracks.shares[k].audio
  {
    ShareIdsAre(tracks.shares, k);
  }

  lemma {:induction false} ShareIdsAre(shares: seq<ShareTracks>, k: nat)
    ensures |ShareIds(shares)| == 2 * |shares|
    ensures k < |shares| ==> ShareIds(shares)[2 * k] == shares[k].video && ShareIds(shares)[2 * k + 1] == shares[k].audio
  {
    if shares != [] {
      ShareIdsAre(shares[1..], if k > 0 then k - 1 else 0);
      if k > 0 && k < |shares| {
        assert ShareIds(shares)[2 * k] == ShareIds(shares[1..])[2 * (k - 1)];
        assert ShareIds(shares)[2 * k + 1] == ShareIds(shares[1..])[2 * (k - 1) + 1];
      }
    }
  }

  ghost predicate NoneShared(a: seq<int>, b: seq<int>) {
    forall x :: x in a ==> x !in b
  }

  lemma DistinctParts(a: seq<int>, b: seq<int>)
    ensures Distinct(a + b) <==> Distinct(a) && Distinct(b) && NoneShared(a, b)
  {
    if Distinct(a + b) {
      NoneInBoth(a, b);
      forall i, j | 0 <= i < j < |a| ensures a[i] != a[j] {
        assert (a + b)[i] != (a + b)[j];
      }
      forall i, j | 0 <= i < j < |b| ensures b[i] != b[j] {
        assert (a + b)[|a| + i] != (a + b)[|a| + j];
      }
    }
    if Distinct(a) && Distinct(b) && NoneShared(a, b) {
      forall i, j | 0 <= i < j < |a + b| ensures (a + b)[i] != (a + b)[j] {
        if i < |a| <= j {
          assert a[i] in a && b[j - |a|] in b;
        }
      }
    }
  }

  /** Nobody else is listed twice, and no media id is on two tracks of theirs or on one of theirs and
      one of `mine`. */
  ghost predicate IsApart(me: UserId, mine: seq<MediaId>, peers: seq<Peer>) {
    && OnePerUser(me, peers)
    && (forall i :: 0 <= i < |peers| && peers[i].user != me ==>
          Distinct(TrackIds(peers[i].tracks)) && NoneShared(mine, TrackIds(peers[i].tracks)))
    && (forall i, j :: 0 <= i < j < |peers| && peers[i].user != me && peers[j].user != me ==>
          NoneShared(TrackIds(peers[i].tracks), TrackIds(peers[j].tracks)))
  }

  lemma {:induction false} AllIdsHas(peers: seq<Peer>, id: MediaId)
    ensures id in AllTrackIds(peers) <==> exists p :: p in peers && id in TrackIds(p.tracks)
  {
    if peers != [] {
      AllIdsHas(peers[1..], id);
      assert forall p :: p in peers <==> p == peers[0] || p in peers[1..];
    }
  }

  lemma NoneSharedWithAll(ids: seq<MediaId>, peers: seq<Peer>)
    ensures NoneShared(ids, AllTrackIds(peers)) <==> forall p :: p in peers ==> NoneShared(ids, TrackIds(p.tracks))
  {
    forall x ensures x in AllTrackIds(peers) <==> exists p :: p in peers && x in TrackIds(p.tracks) {
      AllIdsHas(peers, x);
    }
  }

  ghost predicate NothingClashes(mine: seq<MediaId>, peers: seq<Peer>) {
    Distinct(UserList(peers)) && Distinct(AllTrackIds(peers)) && NoneShared(mine, AllTrackIds(peers))
  }

  lemma NothingClashesFirst(mine: seq<MediaId>, first: Peer, others: seq<Peer>)
    ensures NothingClashes(mine, [first] + others) <==>
      && NothingClashes(mine, others)
      && Distinct(TrackIds(first.tracks)) && NoneShared(mine, TrackIds(first.tracks))
      && forall p :: p in others ==> p.user != first.user && NoneShared(TrackIds(first.tracks), TrackIds(p.tracks))
  {
    hide TrackIds;
    assert ([first] + others)[1..] == others;
    assert UserList([first] + others) == [first.user] + UserList(others);
    assert AllTrackIds([first] + others) == TrackIds(first.tracks) + AllTrackIds(others);
    DistinctParts([first.user], UserList(others));
    DistinctParts(TrackIds(first.tracks), AllTrackIds(others));
    NoneSharedWithAll(TrackIds(first.tracks), others);
    UsersIn(others, first.user);
  }

  lemma {:induction false} OthersApart(me: UserId, mine: seq<MediaId>, peers: seq<Peer>)
    ensures NothingClashes(mine, Others(me, peers)) <==> IsApart(me, mine, peers)
  {
    hide TrackIds, NothingClashes, IsApart, NoneShared, Distinct;
    if peers == [] {
      NobodyClashes(me, mine);
    } else {
      var first, rest := peers[0], peers[1..];
      OthersApart(me, mine, rest);
      OthersAre(me, rest);
      ApartFirst(me, mine, first, rest);
      NothingClashesFirst(mine, first, Others(me, rest));
      assert peers == [first] + rest;
    }
  }

  lemma NobodyClashes(me: UserId, mine: seq<MediaId>)
    ensures NothingClashes(mine, []) && IsApart(me, mine, [])
  {
  }

  lemma UsersIn(peers: seq<Peer>, u: UserId)
    ensures NoneShared([u], UserList(peers)) <==> forall p :: p in peers ==> p.user != u
  {
    forall p | p in peers && p.user == u ensures u in UserList(peers) {
      var i :| 0 <= i < |peers| && peers[i] == p;
      assert UserList(peers)[i] == u;
    }
    if u in UserList(peers) {
      var i :| 0 <= i < |peers| && UserList(peers)[i] == u;
      assert peers[i] in peers;
    }
  }

  /** One more peer in front. */
  lemma ApartFirst(me: UserId, mine: seq<MediaId>, first: Peer, rest: seq<Peer>)
    ensures IsApart(me, mine, [first] + rest) <==>
      && IsApart(me, mine, rest)
      && (first.user != me ==>
            && Distinct(TrackIds(first.tracks)) && NoneShared(mine, TrackIds(first.tracks))
            && forall p :: p in rest && p.user != me ==> p.user != first.user && NoneShared(TrackIds(first.tracks), TrackIds(p.tracks)))
  {
    hide TrackIds, Distinct, NoneShared;
    var all := [first] + rest;
    assert all[0] == first && forall i :: 0 < i < |all| ==> all[i] == rest[i - 1];
    if IsApart(me, mine, all) {
      forall i, j | 0 <= i < j < |rest| && rest[i].user != me ensures rest[i].user != rest[j].user {
        assert all[i + 1].user != all[j + 1].user;
      }
      forall i | 0 <= i < |rest| && rest[i].user != me
        ensures Distinct(TrackIds(rest[i].tracks)) && NoneShared(mine, TrackIds(rest[i].tracks)) {
        assert all[i + 1] == rest[i];
      }
      forall i, j | 0 <= i < j < |rest| && rest[i].user != me && rest[j].user != me
        ensures NoneShared(TrackIds(rest[i].tracks), TrackIds(rest[j].tracks)) {
        assert all[i + 1] == rest[i] && all[j + 1] == rest[j];
      }
      forall p | p in rest && p.user != me && first.user != me
        ensures p.user != first.user && NoneShared(TrackIds(first.tracks), TrackIds(p.tracks)) {
        var i :| 0 <= i < |rest| && rest[i] == p;
        assert all[0].user != all[i + 1].user;
      }
    }
  }

  /** Exactly when a list is refused as a whole. */
  lemma RefusedListsAre(s: Keys, peers: seq<Peer>)
    ensures IsInvalid(s, peers) <==>
      |peers| > 30 || !IsApart(s.me, MyTrackIds(s), peers) || (s.myTracks.Some? && !Distinct(TrackIds(s.myTracks.value)))
  {
    OthersApart(s.me, MyTrackIds(s), peers);
    DistinctParts(MyTrackIds(s), AllTrackIds(Others(s.me, peers)));
  }

  // ---- One room state --------------------------------------------------------------------

  /** `p` is listed as `u`, under an encryption key that is in date, that `u`'s identity signed for this
      server and user, and that HPKE takes; and `peer` is what the list says. */
  ghost predicate Vouches(s: Keys, p: Peer, u: UserId, peer: KeyPeer, unix: nat) {
    && p.user == u && u != s.me
    && peer == KeyPeer(p.identityKey, p.encryptionKey.key, p.tracks)
    && unix < p.encryptionKey.notAfter
    && p.encryptionKey.sig == By(p.identityKey, s.server, u, p.encryptionKey.notAfter, peer.encryptionKey)
    && peer.encryptionKey !in s.weak
  }

  ghost predicate ShownIn(s: Keys, u: UserId, room: RoomId) {
    u in s.present && s.present[u] == room
  }

  /** Only keys that HPKE turns down count as such, and none of them was wrapped to. */
  ghost predicate OnlyWeakFail(s: Keys) {
    && (forall u :: u in s.unwrappable ==> s.unwrappable[u] in s.weak)
    && (forall x :: x in s.wrappedTo ==> x.1 !in s.weak)
  }

  lemma TrustedExactly(s: Keys, room: RoomId, peers: seq<Peer>, unix: nat, u: UserId)
    requires OnlyWeakFail(s) && OnePerUser(s.me, peers)
    ensures var t := Trusted(s, room, peers, unix);
      && (u in t && t[u].encryptionKey !in s.weak ==> ShownIn(s, u, room) && exists p :: p in peers && Vouches(s, p, u, t[u], unix))
      && (forall p, peer :: p in peers && Vouches(s, p, u, peer, unix) && ShownIn(s, u, room) ==> u in t && t[u] == peer)
  {
    var t := Trusted(s, room, peers, unix);
    if u in t && t[u].encryptionKey !in s.weak {
      TrustedAreListed(s, room, peers, unix, u);
      var p :| p in peers && p.user == u && IsTrusted(s, room, p, unix) && t[u] == KeysOf(p);
      assert Vouches(s, p, u, t[u], unix);
    }
    forall p, peer | p in peers && Vouches(s, p, u, peer, unix) && ShownIn(s, u, room) ensures u in t && t[u] == peer {
      assert !(u in s.unwrappable && s.unwrappable[u] == p.encryptionKey.key);
      TrustedHas(s, room, peers, unix, p);
    }
  }

  function Strong(s: Keys): KeyPeers {
    map u | u in s.peers && s.peers[u].encryptionKey !in s.weak :: s.peers[u]
  }

  lemma WrapLeaves(s: Keys, room: RoomId)
    requires s.wrappedTo == {} && s.mySecret.Some? && OnlyWeakFail(s)
    ensures var t := WrapForNewPeers(s, room).0; t.peers == Strong(s) && OnlyWeakFail(t)
  {
    hide WrapAll, OwnersLeft, GivenTo;
    var t := WrapForNewPeers(s, room).0;
    forall x: (UserId, PublicKey) | x in t.wrappedTo ensures x.1 !in s.weak {
      GivenToHas(s, x.0, x.1);
    }
    assert forall u :: u in s.peers ==> IsNew(s, u);
    SameMap(t.peers, Strong(s));
  }

  ghost predicate SameSelf(s: Keys, t: Keys) {
    && t.me == s.me && t.server == s.server && t.weak == s.weak && t.present == s.present
    && t.encryption == s.encryption && t.retiredEncryption == s.retiredEncryption
  }

  lemma StartStays(s: Keys, epoch: Epoch, now: Time)
    ensures var t := StartEpoch(s, epoch, now);
      && t.mySecret.Some? && t.wrappedTo == {}
      && t == s.(received := t.received, epoch := t.epoch, epochSince := t.epochSince, floors := t.floors, serial := t.serial,
                 sendKeys := t.sendKeys, mySecret := t.mySecret, wrappedTo := {})
  {
    hide RetireBefore, Raise, DeriveAll;
  }

  lemma WrapStays(s: Keys, room: RoomId)
    ensures var t := WrapForNewPeers(s, room).0;
      SameSelf(s, t) && t.room == s.room && t.roomPeers == s.roomPeers && t.stashed == s.stashed
  {
    hide WrapAll, OwnersLeft, GivenTo, Refused, RefusedKeys;
  }

  /** What wrapping leaves: the peers whose keys HPKE takes. */
  lemma RekeyLeaves(s: Keys, room: RoomId, epoch: Epoch, now: Time)
    requires OnlyWeakFail(s)
    ensures var t := Rekey(s, room, epoch, now).0; t.peers == Strong(s) && OnlyWeakFail(t) && SameSelf(s, t)
  {
    hide WrapForNewPeers, StartEpoch, PeerSet, Strong;
    if NeedsNewSecret(s, epoch) {
      var ready := StartEpoch(s, epoch, now);
      StartStays(s, epoch, now);
      WrapLeaves(ready, room);
      WrapStays(ready, room);
      SameStrong(s, ready);
    } else {
      WrapsForNobody(s, room);
      NobodyIsWeak(s);
    }
  }

  lemma SameStrong(s: Keys, t: Keys)
    requires t.peers == s.peers && t.weak == s.weak
    ensures Strong(s) == Strong(t)
  {
  }

  lemma NobodyIsWeak(s: Keys)
    requires OnlyWeakFail(s) && PeerSet(s.peers) == s.wrappedTo
    ensures Strong(s) == s.peers
  {
    forall u | u in s.peers ensures s.peers[u].encryptionKey !in s.weak {
      PeerSetHas(s.peers, u, s.peers[u].encryptionKey);
      assert (u, s.peers[u].encryptionKey) in s.wrappedTo;
    }
    SameMap(Strong(s), s.peers);
  }

  /** What a room state makes of the peers, in the terms of the list: nobody, if it is refused as a
      whole, and otherwise exactly those shown in the room by their presence who are vouched for. */
  ghost predicate TrustsList(s: Keys, t: Keys, room: RoomId, peers: seq<Peer>, unix: nat) {
    if |peers| > 30 || !IsApart(s.me, MyTrackIds(s), peers) || (s.myTracks.Some? && !Distinct(TrackIds(s.myTracks.value)))
    then t.peers == map[]
    else
      && (forall u :: u in t.peers ==> ShownIn(s, u, room) && exists p :: p in peers && Vouches(s, p, u, t.peers[u], unix))
      && (forall u, p, peer :: p in peers && Vouches(s, p, u, peer, unix) && ShownIn(s, u, room) ==> u in t.peers && t.peers[u] == peer)
  }

  lemma StateTrustsExactly(s: Keys, room: RoomId, epoch: Epoch, peers: seq<Peer>, now: Time, unix: nat)
    requires OnlyWeakFail(s) && Accepts(s, room, epoch)
    ensures var t := PeersChanged(s, room, epoch, peers, now, unix).0;
      TrustsList(s, t, room, peers, unix) && OnlyWeakFail(t)
  {
    hide Trusted, Rekey, TakeEarly, IsInvalid, IsApart, Owners, RetireDeparted;
    var trusting := TrustState(s, room, peers, now, unix);
    var rekeyed := Rekey(trusting, room, epoch, now).0;
    var t := PeersChanged(s, room, epoch, peers, now, unix).0;
    RefusedListsAre(s, peers);
    RekeyLeaves(trusting, room, epoch, now);
    EarlyTouches(rekeyed, now);
    if !IsInvalid(s, peers) {
      var listed := s.(unwrappable := Listed(s.unwrappable, peers));
      ApartOnce(s, peers);
      forall u ensures
        && (u in t.peers ==> ShownIn(s, u, room) && exists p :: p in peers && Vouches(s, p, u, t.peers[u], unix))
        && (forall p, peer :: p in peers && Vouches(s, p, u, peer, unix) && ShownIn(s, u, room) ==> u in t.peers && t.peers[u] == peer)
      {
        TrustedExactly(listed, room, peers, unix, u);
        forall p, peer ensures Vouches(listed, p, u, peer, unix) <==> Vouches(s, p, u, peer, unix) {
        }
      }
    }
  }

  lemma ApartOnce(s: Keys, peers: seq<Peer>)
    requires IsApart(s.me, MyTrackIds(s), peers)
    ensures OnePerUser(s.me, peers)
  {
  }

  // ---- Whole runs ------------------------------------------------------------------------

  /** The server lists `p` for this room. */
  ghost predicate Lists(step: Step, room: RoomId, p: Peer) {
    || (step.op.RoomState? && step.op.room == room && p in step.op.peers)
    || (step.op.Placement? && step.op.to == Some(room) && p in step.op.peers)
  }

  ghost predicate IsListed(steps: seq<Step>, room: RoomId, p: Peer) {
    exists i :: 0 <= i < |steps| && Lists(steps[i], room, p)
  }

  ghost predicate AllListed(steps: seq<Step>, room: RoomId, peers: seq<Peer>) {
    forall p :: p in peers ==> IsListed(steps, room, p)
  }

  /** A peer goes back to an entry of the list applied last, which held by the clock at some step. */
  ghost predicate IsVouchedFor(s: Keys, steps: seq<Step>, u: UserId, peer: KeyPeer) {
    exists p, i :: p in s.roomPeers && 0 <= i < |steps| && Vouches(s, p, u, peer, steps[i].unix)
  }

  ghost predicate Backed(s: Keys, steps: seq<Step>) {
    && OnlyWeakFail(s)
    && (s.roomPeers != [] ==> s.room.Some? && AllListed(steps, s.room.value, s.roomPeers))
    && (s.stashed.Some? ==> AllListed(steps, s.stashed.value.room, s.stashed.value.peers))
    && (forall u :: u in s.peers ==> s.room.Some? && ShownIn(s, u, s.room.value) && IsVouchedFor(s, steps, u, s.peers[u]))
  }

  /** The rest of the keys doesn't concern who is trusted. */
  ghost predicate SameTrusting(s: Keys, t: Keys) {
    && SameSelf(s.(encryption := t.encryption, retiredEncryption := t.retiredEncryption), t) && t.room == s.room && t.roomPeers == s.roomPeers
    && t.peers == s.peers && t.unwrappable == s.unwrappable && t.wrappedTo == s.wrappedTo
  }

  lemma SameBacked(s: Keys, t: Keys, steps: seq<Step>)
    requires Backed(s, steps) && SameTrusting(s, t)
    requires t.stashed.Some? ==> AllListed(steps, t.stashed.value.room, t.stashed.value.peers)
    ensures Backed(t, steps)
  {
    hide AllListed;
    forall u | u in t.peers ensures IsVouchedFor(t, steps, u, t.peers[u]) {
      var p, i :| p in s.roomPeers && 0 <= i < |steps| && Vouches(s, p, u, s.peers[u], steps[i].unix);
      assert Vouches(t, p, u, t.peers[u], steps[i].unix);
    }
  }

  lemma LaterBacked(s: Keys, steps: seq<Step>, step: Step)
    requires Backed(s, steps)
    ensures Backed(s, steps + [step])
  {
    var more := steps + [step];
    forall room, p | IsListed(steps, room, p) ensures IsListed(more, room, p) {
      var i :| 0 <= i < |steps| && Lists(steps[i], room, p);
      assert Lists(more[i], room, p);
    }
    forall u | u in s.peers ensures IsVouchedFor(s, more, u, s.peers[u]) {
      var p, i :| p in s.roomPeers && 0 <= i < |steps| && Vouches(s, p, u, s.peers[u], steps[i].unix);
      assert Vouches(s, p, u, s.peers[u], more[i].unix);
    }
  }

  lemma StateStays(s: Keys, room: RoomId, epoch: Epoch, peers: seq<Peer>, now: Time, unix: nat)
    requires Accepts(s, room, epoch)
    ensures var t := PeersChanged(s, room, epoch, peers, now, unix).0;
      SameSelf(s, t) && t.room == s.room && t.roomPeers == peers && t.stashed == s.stashed
  {
    hide TrustState, Rekey, TakeEarly;
    var trusting := TrustState(s, room, peers, now, unix);
    var rekeyed := Rekey(trusting, room, epoch, now).0;
    TrustStands(s, room, peers, now, unix);
    RekeyKeepsLists(trusting, room, epoch, now);
    EarlyTouches(rekeyed, now);
  }

  lemma RekeyKeepsLists(s: Keys, room: RoomId, epoch: Epoch, now: Time)
    ensures var t := Rekey(s, room, epoch, now).0;
      SameSelf(s, t) && t.room == s.room && t.roomPeers == s.roomPeers && t.stashed == s.stashed
  {
    hide WrapForNewPeers, StartEpoch, PeerSet;
    StartStays(s, epoch, now);
    WrapStays(if NeedsNewSecret(s, epoch) then StartEpoch(s, epoch, now) else s, room);
  }

  lemma AcceptedBacked(s: Keys, room: RoomId, epoch: Epoch, peers: seq<Peer>, now: Time, unix: nat, steps: seq<Step>, i: nat)
    requires OnlyWeakFail(s) && Accepts(s, room, epoch) && (peers != [] ==> AllListed(steps, room, peers))
    requires s.stashed.Some? ==> AllListed(steps, s.stashed.value.room, s.stashed.value.peers)
    requires i < |steps| && steps[i].unix == unix
    ensures Backed(PeersChanged(s, room, epoch, peers, now, unix).0, steps)
  {
    hide PeersChanged, Vouches, OnlyWeakFail, AllListed, IsApart;
    var t := PeersChanged(s, room, epoch, peers, now, unix).0;
    StateStays(s, room, epoch, peers, now, unix);
    StateTrustsExactly(s, room, epoch, peers, now, unix);
    forall u | u in t.peers ensures ShownIn(t, u, room) && IsVouchedFor(t, steps, u, t.peers[u]) {
      var p :| p in peers && Vouches(s, p, u, t.peers[u], unix);
      SameVouches(s, t, p, u, t.peers[u], unix);
      assert p in t.roomPeers && Vouches(t, p, u, t.peers[u], steps[i].unix);
    }
  }

  lemma StateBacked(s: Keys, room: RoomId, epoch: Epoch, peers: seq<Peer>, now: Time, unix: nat, steps: seq<Step>, i: nat)
    requires Backed(s, steps) && AllListed(steps, room, peers) && i < |steps| && steps[i].unix == unix
    ensures Backed(PeersChanged(s, room, epoch, peers, now, unix).0, steps)
  {
    hide PeersChanged, OnlyWeakFail, AllListed;
    var t := PeersChanged(s, room, epoch, peers, now, unix).0;
    if Accepts(s, room, epoch) {
      AcceptedBacked(s, room, epoch, peers, now, unix, steps, i);
    } else {
      NotAccepted(s, room, epoch, peers, now, unix);
      SameBacked(s, t, steps);
    }
  }

  lemma NotAccepted(s: Keys, room: RoomId, epoch: Epoch, peers: seq<Peer>, now: Time, unix: nat)
    requires !Accepts(s, room, epoch)
    ensures var (t, request) := PeersChanged(s, room, epoch, peers, now, unix);
      request == None && (t == s || t == s.(stashed := Some(Stash(room, epoch, peers))))
  {
  }

  lemma SameVouches(s: Keys, t: Keys, p: Peer, u: UserId, peer: KeyPeer, unix: nat)
    requires t.me == s.me && t.server == s.server && t.weak == s.weak
    ensures Vouches(s, p, u, peer, unix) <==> Vouches(t, p, u, peer, unix)
  {
  }

  lemma IsSomeoneElse(s: Keys, p: Peer, u: UserId, peer: KeyPeer, unix: nat)
    requires Vouches(s, p, u, peer, unix)
    ensures u != s.me
  {
  }

  lemma PlaceBacked(s: Keys, to: Option<RoomId>, tracks: Option<Tracks>, steps: seq<Step>)
    requires Backed(s, steps)
    ensures Backed(Place(s, to, tracks), steps) && Backed(Place(s, to, tracks).(stashed := None), steps)
  {
    hide AllListed, Vouches;
    var t := Place(s, to, tracks);
    if to == s.room {
      forall u | u in t.peers ensures IsVouchedFor(t, steps, u, t.peers[u]) && IsVouchedFor(t.(stashed := None), steps, u, t.peers[u]) {
        var p, i :| p in s.roomPeers && 0 <= i < |steps| && Vouches(s, p, u, s.peers[u], steps[i].unix);
        SameVouches(s, t, p, u, t.peers[u], steps[i].unix);
        SameVouches(s, t.(stashed := None), p, u, t.peers[u], steps[i].unix);
      }
    }
  }

  lemma CatchUpBacked(s: Keys, room: RoomId, epoch: Epoch, now: Time, unix: nat, steps: seq<Step>, i: nat)
    requires Backed(s, steps) && i < |steps| && steps[i].unix == unix
    ensures Backed(CatchUp(s, room, epoch, now, unix).0, steps)
  {
    hide PeersChanged, AllListed, OnlyWeakFail;
    var caught := s.(stashed := None);
    SameBacked(s, caught, steps);
    if s.stashed.Some? && s.stashed.value.room == room {
      StateBacked(caught, room, s.stashed.value.epoch, s.stashed.value.peers, now, unix, steps, i);
    }
  }

  lemma SameWeak(s: Keys, t: Keys)
    requires OnlyWeakFail(s) && t.unwrappable == s.unwrappable && t.wrappedTo == s.wrappedTo && t.weak == s.weak
    ensures OnlyWeakFail(t)
  {
  }

  lemma PlacementBacked(s: Keys, to: Option<RoomId>, epoch: Epoch, tracks: Option<Tracks>, peers: seq<Peer>, now: Time, unix: nat,
                        steps: seq<Step>, i: nat)
    requires Backed(s, steps) && i < |steps| && steps[i].unix == unix
    requires to.Some? ==> AllListed(steps, to.value, peers)
    ensures Backed(ApplyPlacement(s, to, epoch, tracks, peers, now, unix).0, steps)
  {
    hide PeersChanged, CatchUp, Place, Backed, AllListed;
    PlaceBacked(s, to, tracks, steps);
    if to.Some? {
      var placed := Place(s, to, tracks);
      StateBacked(placed, to.value, epoch, peers, now, unix, steps, i);
      CatchUpBacked(PeersChanged(placed, to.value, epoch, peers, now, unix).0, to.value, epoch, now, unix, steps, i);
    }
  }

  lemma ShownBacked(s: Keys, user: UserId, at: Option<RoomId>, now: Time, unix: nat, steps: seq<Step>, i: nat)
    requires Backed(s, steps) && i < |steps| && steps[i].unix == unix
    ensures var (t, changed) := SetPresence(s, user, at);
      Backed(if changed then ReapplyPeers(t, now, unix).0 else t, steps)
  {
    hide PeersChanged, AllListed, Vouches, OnlyWeakFail, IsVouchedFor, ShownIn;
    var (t, changed) := SetPresence(s, user, at);
    SameWeak(s, t);
    if changed {
      AcceptedBacked(t, t.room.value, t.epoch, t.roomPeers, now, unix, steps, i);
    } else {
      StillShown(s, user, at, steps);
    }
  }

  lemma UserStillShown(s: Keys, user: UserId, at: Option<RoomId>, u: UserId)
    requires !SetPresence(s, user, at).1 && s.room.Some? && u != s.me && ShownIn(s, u, s.room.value)
    ensures ShownIn(SetPresence(s, user, at).0, u, s.room.value)
  {
  }

  lemma PresenceKeepsLists(s: Keys, user: UserId, at: Option<RoomId>)
    ensures SetPresence(s, user, at).0 == s.(present := SetPresence(s, user, at).0.present)
  {
    hide PresenceIsFull, Presence;
  }

  lemma StillShown(s: Keys, user: UserId, at: Option<RoomId>, steps: seq<Step>)
    requires Backed(s, steps) && !SetPresence(s, user, at).1
    ensures var t := SetPresence(s, user, at).0;
      forall u :: u in t.peers ==> ShownIn(t, u, t.room.value) && IsVouchedFor(t, steps, u, t.peers[u])
  {
    hide AllListed, OnlyWeakFail, Vouches, SetPresence, ShownIn;
    var t := SetPresence(s, user, at).0;
    PresenceKeepsLists(s, user, at);
    forall u | u in t.peers ensures ShownIn(t, u, t.room.value) && IsVouchedFor(t, steps, u, t.peers[u]) {
      var p, i :| p in s.roomPeers && 0 <= i < |steps| && Vouches(s, p, u, s.peers[u], steps[i].unix);
      IsSomeoneElse(s, p, u, s.peers[u], steps[i].unix);
      UserStillShown(s, user, at, u);
      SameVouches(s, t, p, u, t.peers[u], steps[i].unix);
    }
  }

  lemma StepBacked(s: Keys, step: Step, steps: seq<Step>)
    requires Backed(s, steps)
    ensures Backed(Apply(s, step).0, steps + [step])
  {
    hide Backed, PeersChanged, ApplyPlacement, SetPresence, ReapplyPeers, SenderKey, RecvKey, Tick;
    var more, i, t := steps + [step], |steps|, Apply(s, step).0;
    LaterBacked(s, steps, step);
    assert more[i] == step;
    match step.op
    case Shown(user, at) => ShownBacked(s, user, at, step.now, step.unix, more, i);
    case RoomState(room, epoch, peers) =>
      assert forall p :: p in peers ==> Lists(more[i], room, p);
      StateBacked(s, room, epoch, peers, step.now, step.unix, more, i);
    case Placement(to, epoch, tracks, peers) =>
      assert to.Some? ==> forall p :: p in peers ==> Lists(more[i], to.value, p);
      PlacementBacked(s, to, epoch, tracks, peers, step.now, step.unix, more, i);
    case Reconnected(encryption) => NewBacked(s, encryption, step.now, more);
    case _ => OthersBacked(s, step, more);
  }

  lemma NewBacked(s: Keys, encryption: PublicKey, now: Time, steps: seq<Step>)
    ensures Backed(New(s.me, s.server, s.weak, encryption, s.floors, now, s.serial), steps)
  {
  }

  lemma OthersBacked(s: Keys, step: Step, steps: seq<Step>)
    requires Backed(s, steps) && (step.op.KeyFrom? || step.op.Read? || step.op.Ticked? || step.op.Renewed?)
    ensures Backed(Apply(s, step).0, steps)
  {
    hide Backed, SenderKey, RecvKey, Tick, SameTrusting;
    match step.op
    case KeyFrom(sender, epoch, blob) =>
      KeyTrustsSame(s, sender, epoch, blob, step.now);
      SameAndBacked(s, SenderKey(s, sender, epoch, blob, step.now).0, steps);
    case _ =>
      OthersTrustSame(s, step);
      SameAndBacked(s, Apply(s, step).0, steps);
  }

  lemma SameAndBacked(s: Keys, t: Keys, steps: seq<Step>)
    requires Backed(s, steps) && SameTrusting(s, t) && t.stashed == s.stashed
    ensures Backed(t, steps)
  {
    hide SameTrusting;
    SameBacked(s, t, steps);
  }

  /** All that a sender key can touch. */
  ghost predicate OnlyReceives(s: Keys, t: Keys) {
    t == s.(received := t.received, recvKeys := t.recvKeys, early := t.early, generation := t.generation)
  }

  lemma KeyReceives(s: Keys, sender: UserId, epoch: Epoch, blob: Blob, now: Time)
    ensures OnlyReceives(s, SenderKey(s, sender, epoch, blob, now).0)
  {
    hide Judge, StoreKey, OnlyReceives;
    var verdict := Judge(s, sender, epoch, blob, now);
    if verdict.Store? {
      StoreReceives(s, (sender, epoch), Received(verdict.secret, verdict.retireAt), now);
    }
    EarlyReceives(s, s.early[(sender, epoch) := (now, blob)]);
  }

  lemma StoreReceives(s: Keys, k: SenderAt, r: Received, now: Time)
    ensures OnlyReceives(s, StoreKey(s, k, r, now))
  {
    hide RetireEarlierOf, Forget;
  }

  lemma EarlyReceives(s: Keys, early: EarlyKeys)
    ensures OnlyReceives(s, s) && OnlyReceives(s, s.(early := early))
  {
  }

  lemma KeyTrustsSame(s: Keys, sender: UserId, epoch: Epoch, blob: Blob, now: Time)
    ensures var t := SenderKey(s, sender, epoch, blob, now).0; SameTrusting(s, t) && t.stashed == s.stashed
  {
    hide SenderKey;
    KeyReceives(s, sender, epoch, blob, now);
  }

  lemma OthersTrustSame(s: Keys, step: Step)
    requires step.op.Read? || step.op.Ticked? || step.op.Renewed?
    ensures var t := Apply(s, step).0; SameTrusting(s, t) && t.stashed == s.stashed
  {
    hide Kept, CachedFor, FreshEarly, BelowFloor, CacheHit;
  }

  lemma {:induction false} RunBacked(s: Keys, done: seq<Step>, steps: seq<Step>)
    requires Backed(s, done)
    ensures Backed(Run(s, steps), done + steps)
    decreases |steps|
  {
    hide Backed, Apply;
    if steps == [] {
      assert done + steps == done;
    } else {
      StepBacked(s, steps[0], done);
      RunBacked(Apply(s, steps[0]).0, done + [steps[0]], steps[1..]);
      assert done + [steps[0]] + steps[1..] == done + steps;
    }
  }

  /** Over any run, whoever is trusted was listed for the room we are in, is shown there by their
      presence now, and was listed under the keys trusted, with a signature by that identity for this
      server, this user and this encryption key, in date by the clock at some step. */
  lemma PeersAreVouchedFor(me: UserId, server: Server, weak: set<PublicKey>, encryption: PublicKey, floors: Floors,
                           start: Time, serial: nat, steps: seq<Step>, u: UserId)
    requires u in Run(New(me, server, weak, encryption, floors, start, serial), steps).peers
    ensures var t := Run(New(me, server, weak, encryption, floors, start, serial), steps);
      && t.room.Some? && u != t.me && u in t.present && t.present[u] == t.room.value
      && exists p, i :: IsListed(steps, t.room.value, p) && p.user == u && 0 <= i < |steps|
           && steps[i].unix < p.encryptionKey.notAfter
           && t.peers[u] == KeyPeer(p.identityKey, p.encryptionKey.key, p.tracks)
           && p.encryptionKey.sig == By(p.identityKey, t.server, u, p.encryptionKey.notAfter, t.peers[u].encryptionKey)
  {
    hide Apply, OnlyWeakFail;
    var s := New(me, server, weak, encryption, floors, start, serial);
    NewBacked(s, encryption, start, []);
    RunBacked(s, [], steps);
    assert [] + steps == steps;
    var t := Run(s, steps);
    var p, i :| p in t.roomPeers && 0 <= i < |steps| && Vouches(t, p, u, t.peers[u], steps[i].unix);
    assert IsListed(steps, t.room.value, p);
  }

  // ---- What is handed out ----------------------------------------------------------------

  /** What a room state hands out: our secret, sealed for each peer under the key trusted. */
  lemma StateHands(s: Keys, room: RoomId, epoch: Epoch, peers: seq<Peer>, now: Time, unix: nat)
    ensures var (t, request) := PeersChanged(s, room, epoch, peers, now, unix);
      request.Some? ==>
        && Accepts(s, room, epoch) && t.mySecret.Some? && t.mySecret.value.owner == s.me
        && request.value.epoch == epoch && request.value.wrapped.Keys == t.peers.Keys
        && forall u :: u in t.peers ==>
             request.value.wrapped[u] ==
               Sealed(t.mySecret.value, Context(t.server, room, epoch, t.me, u), t.encryption, t.peers[u].encryptionKey)
  {
    hide TrustState, Rekey, TakeEarly;
    if Accepts(s, room, epoch) {
      var trusting := TrustState(s, room, peers, now, unix);
      var rekeyed := Rekey(trusting, room, epoch, now).0;
      TrustStands(s, room, peers, now, unix);
      RekeyPublishes(trusting, room, epoch, now);
      EarlyTouches(rekeyed, now);
    }
  }

  /** A wrap of a request goes to someone the server listed for the room we are in, who is shown there
      and vouched for now; it seals a secret of ours to the key listed, for them alone. */
  ghost predicate HandsRightly(t: Keys, steps: seq<Step>, unix: nat, q: Publish, u: UserId)
    requires u in q.wrapped
  {
    && t.room.Some? && ShownIn(t, u, t.room.value)
    && exists p, peer, secret: Secret :: IsListed(steps, t.room.value, p) && Vouches(t, p, u, peer, unix) && secret.owner == t.me
         && q.wrapped[u] == Sealed(secret, Context(t.server, t.room.value, q.epoch, t.me, u), t.encryption, peer.encryptionKey)
  }

  lemma StateHandsRightly(s: Keys, room: RoomId, epoch: Epoch, peers: seq<Peer>, now: Time, unix: nat, steps: seq<Step>, u: UserId)
    requires OnlyWeakFail(s) && (Accepts(s, room, epoch) && peers != [] ==> AllListed(steps, room, peers))
    ensures var (t, request) := PeersChanged(s, room, epoch, peers, now, unix);
      request.Some? && u in request.value.wrapped ==> HandsRightly(t, steps, unix, request.value, u)
  {
    hide PeersChanged, OnlyWeakFail, IsApart, IsListed, Vouches;
    var (t, request) := PeersChanged(s, room, epoch, peers, now, unix);
    StateHands(s, room, epoch, peers, now, unix);
    if request.Some? && u in request.value.wrapped {
      StateStays(s, room, epoch, peers, now, unix);
      StateTrustsExactly(s, room, epoch, peers, now, unix);
      var p :| p in peers && Vouches(s, p, u, t.peers[u], unix);
      SameVouches(s, t, p, u, t.peers[u], unix);
      assert IsListed(steps, room, p) && t.mySecret.value.owner == t.me;
    }
  }

  lemma HandsAlike(s: Keys, t: Keys, steps: seq<Step>, unix: nat, q: Publish, u: UserId)
    requires u in q.wrapped && HandsRightly(s, steps, unix, q, u) && SameSelf(s, t) && t.room == s.room
    ensures HandsRightly(t, steps, unix, q, u)
  {
    var p, peer, secret: Secret :| IsListed(steps, s.room.value, p) && Vouches(s, p, u, peer, unix) && secret.owner == s.me
      && q.wrapped[u] == Sealed(secret, Context(s.server, s.room.value, q.epoch, s.me, u), s.encryption, peer.encryptionKey);
    SameVouches(s, t, p, u, peer, unix);
  }

  lemma CatchUpHands(s: Keys, room: RoomId, epoch: Epoch, now: Time, unix: nat, steps: seq<Step>, u: UserId)
    requires Backed(s, steps)
    ensures var (t, request) := CatchUp(s, room, epoch, now, unix);
      && SameSelf(s, t) && t.room == s.room
      && (request.Some? && u in request.value.wrapped ==> HandsRightly(t, steps, unix, request.value, u))
  {
    hide PeersChanged, OnlyWeakFail, HandsRightly, AllListed;
    var caught := s.(stashed := None);
    if s.stashed.Some? {
      var stash := s.stashed.value;
      SameWeak(s, caught);
      StateHandsRightly(caught, stash.room, stash.epoch, stash.peers, now, unix, steps, u);
      if Accepts(caught, stash.room, stash.epoch) {
        StateStays(caught, stash.room, stash.epoch, stash.peers, now, unix);
      } else {
        NotAccepted(caught, stash.room, stash.epoch, stash.peers, now, unix);
      }
    }
  }

  lemma PlacementHands(s: Keys, to: Option<RoomId>, epoch: Epoch, tracks: Option<Tracks>, peers: seq<Peer>, now: Time, unix: nat,
                       steps: seq<Step>, i: nat, q: Publish, u: UserId)
    requires Backed(s, steps) && i < |steps| && steps[i].unix == unix && (to.Some? ==> AllListed(steps, to.value, peers))
    requires q in ApplyPlacement(s, to, epoch, tracks, peers, now, unix).1 && u in q.wrapped
    ensures HandsRightly(ApplyPlacement(s, to, epoch, tracks, peers, now, unix).0, steps, unix, q, u)
  {
    hide PeersChanged, CatchUp, Place, HandsRightly, AllListed, OnlyWeakFail;
    var placed := Place(s, to, tracks);
    var (entered, first) := PeersChanged(placed, to.value, epoch, peers, now, unix);
    var (caughtUp, second) := CatchUp(entered, to.value, epoch, now, unix);
    PlaceBacked(s, to, tracks, steps);
    StateBacked(placed, to.value, epoch, peers, now, unix, steps, i);
    StateHandsRightly(placed, to.value, epoch, peers, now, unix, steps, u);
    CatchUpHands(entered, to.value, epoch, now, unix, steps, u);
    if first == Some(q) {
      HandsAlike(entered, caughtUp, steps, unix, q, u);
    }
  }

  lemma StepHands(s: Keys, step: Step, steps: seq<Step>, q: Publish, u: UserId)
    requires Backed(s, steps) && q in Apply(s, step).1 && u in q.wrapped
    ensures HandsRightly(Apply(s, step).0, steps + [step], step.unix, q, u)
  {
    hide PeersChanged, ApplyPlacement, SetPresence, SenderKey, RecvKey, Tick, HandsRightly, OnlyWeakFail, AllListed;
    var more, i := steps + [step], |steps|;
    LaterBacked(s, steps, step);
    assert more[i] == step;
    match step.op
    case Shown(user, at) => ShownHands(s, user, at, step.now, step.unix, more, u);
    case RoomState(room, epoch, peers) =>
      StepLists(more, i, room, peers);
      StateHandsRightly(s, room, epoch, peers, step.now, step.unix, more, u);
    case Placement(to, epoch, tracks, peers) =>
      if to.Some? {
        StepLists(more, i, to.value, peers);
      }
      PlacementHands(s, to, epoch, tracks, peers, step.now, step.unix, more, i, q, u);
    case _ =>
  }

  lemma StepLists(steps: seq<Step>, i: nat, room: RoomId, peers: seq<Peer>)
    requires i < |steps| && forall p :: p in peers ==> Lists(steps[i], room, p)
    ensures AllListed(steps, room, peers)
  {
  }

  lemma ShownHands(s: Keys, user: UserId, at: Option<RoomId>, now: Time, unix: nat, steps: seq<Step>, u: UserId)
    requires Backed(s, steps)
    ensures var t := SetPresence(s, user, at).0;
      var (after, request) := ReapplyPeers(t, now, unix);
      request.Some? && u in request.value.wrapped ==> HandsRightly(after, steps, unix, request.value, u)
  {
    hide PeersChanged, HandsRightly, OnlyWeakFail, AllListed, Vouches, IsVouchedFor, ShownIn;
    var t := SetPresence(s, user, at).0;
    SameWeak(s, t);
    if t.room.Some? {
      StateHandsRightly(t, t.room.value, t.epoch, t.roomPeers, now, unix, steps, u);
    }
  }

  /** Whatever a client was told before, each wrap it publishes seals a secret of its own, for this
      server, room, epoch and recipient, to an encryption key that the server listed for that
      recipient in this room, in date now, which the identity listed beside it signed for this server
      and user; and the recipient is shown in the room by their presence. */
  lemma SecretsGoToVouchedPeers(me: UserId, server: Server, weak: set<PublicKey>, encryption: PublicKey, floors: Floors,
                                start: Time, serial: nat, steps: seq<Step>, step: Step, q: Publish, u: UserId)
    requires var s := Run(New(me, server, weak, encryption, floors, start, serial), steps);
             q in Apply(s, step).1 && u in q.wrapped
    ensures var t := Apply(Run(New(me, server, weak, encryption, floors, start, serial), steps), step).0;
      && t.room.Some? && u in t.present && t.present[u] == t.room.value && u != t.me
      && q.wrapped[u].Sealed?
      && q.wrapped[u].secret.owner == t.me && q.wrapped[u].sealedBy == t.encryption
      && q.wrapped[u].context == Context(t.server, t.room.value, q.epoch, t.me, u)
      && exists p :: IsListed(steps + [step], t.room.value, p) && p.user == u
           && p.encryptionKey.key == q.wrapped[u].sealedTo && step.unix < p.encryptionKey.notAfter
           && p.encryptionKey.sig == By(p.identityKey, t.server, u, p.encryptionKey.notAfter, q.wrapped[u].sealedTo)
  {
    hide Apply, Backed;
    var s := New(me, server, weak, encryption, floors, start, serial);
    NewBacked(s, encryption, start, []);
    RunBacked(s, [], steps);
    assert [] + steps == steps;
    StepHands(Run(s, steps), step, steps, q, u);
    var t := Apply(Run(s, steps), step).0;
    var p, peer, secret: Secret :| IsListed(steps + [step], t.room.value, p) && Vouches(t, p, u, peer, step.unix) && secret.owner == t.me
      && q.wrapped[u] == Sealed(secret, Context(t.server, t.room.value, q.epoch, t.me, u), t.encryption, peer.encryptionKey);
  }
}
