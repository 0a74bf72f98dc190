/** What a client has been given stays with it, held or stored, until something newer comes. */
module NetArrival {
  import opened Collections
  import opened KeyModel
  import opened KeyInvariants
  import opened KeyTheorems
  import opened KeyRuns
  import opened NetModel
  import opened NetSafety

  /** The newest of what `a` sent this client for `epoch`: held until it can be opened, or
      stored. */
  ghost predicate Reached(k: Keys, a: UserId, epoch: Epoch, blob: Blob) {
    blob.Sealed? &&
    if (a, epoch) in k.early then k.early[(a, epoch)].1 == blob
    else (a, epoch) in k.received && k.received[(a, epoch)].secret == blob.secret
  }

  /** Nothing but the start of grace periods happened to the stored secrets. */
  ghost predicate SameSecrets(s: Keys, t: Keys) {
    && t.early == s.early
    && forall x :: x in s.received ==> x in t.received && t.received[x].secret == s.received[x].secret
  }

  lemma SameReached(s: Keys, t: Keys, a: UserId, epoch: Epoch, blob: Blob)
    requires Reached(s, a, epoch, blob) && SameSecrets(s, t)
    ensures Reached(t, a, epoch, blob)
  {
  }

  lemma TrustKeepsSecrets(s: Keys, room: RoomId, peers: seq<Peer>, now: Time, unix: nat)
    ensures SameSecrets(s, TrustState(s, room, peers, now, unix))
  {
    hide TrustedNow, StillUnwrappable, Owners, Departed;
  }

  lemma RekeyKeepsSecrets(s: Keys, room: RoomId, epoch: Epoch, now: Time)
    ensures SameSecrets(s, Rekey(s, room, epoch, now).0)
  {
    hide StartEpoch, WrapForNewPeers, PeerSet;
    var ready := if NeedsNewSecret(s, epoch) then StartEpoch(s, epoch, now) else s;
    StartKeepsSecrets(s, epoch, now);
    WrapTouches(ready, room);
  }

  lemma StartKeepsSecrets(s: Keys, epoch: Epoch, now: Time)
    ensures SameSecrets(s, StartEpoch(s, epoch, now))
  {
    hide Raise, DeriveAll, MyTrackIds;
  }

  // ---- Where a step leaves a client ----------------------------------------------------

  /** An event leaves a client where it is, and as deaf as it was. */
  lemma EventStays(w: World, at: Epoch, members: Members, u: UserId, k: Keys, op: Op, epoch: Epoch)
    requires MessageOk(w, at, members, u, op)
    ensures var t := Apply(k, Step(op, w.now, w.unix)).0;
      t.room == k.room && t.myTracks == k.myTracks && (IsDeaf(w, epoch, t) <==> IsDeaf(w, epoch, k))
  {
    hide ListOk, SenderKey, PeersChanged;
    match op
    case RoomState(room, e, peers) => RoomStays(k, room, e, peers, w.now, w.unix);
    case Shown(user, where) =>
      var t := SetPresence(k, user, where).0;
      PresenceTouches(k, user, where);
      if t.room.Some? {
        RoomStays(t, t.room.value, t.epoch, t.roomPeers, w.now, w.unix);
      }
    case KeyFrom(sender, e, blob) => SenderKeyTouches(k, sender, e, blob, w.now);
  }

  lemma RoomStays(s: Keys, room: RoomId, epoch: Epoch, peers: seq<Peer>, now: Time, unix: nat)
    ensures var t := PeersChanged(s, room, epoch, peers, now, unix).0;
      && t.me == s.me && t.room == s.room && t.floor == s.floor && t.myTracks == s.myTracks
      && (s.room.None? ==> t.floors == s.floors)
  {
    hide PeersChanged;
    if Accepts(s, room, epoch) {
      AcceptedStays(s, room, epoch, peers, now, unix);
    } else {
      RefusedStates(s, room, epoch, peers, now, unix);
    }
  }

  lemma AcceptedStays(s: Keys, room: RoomId, epoch: Epoch, peers: seq<Peer>, now: Time, unix: nat)
    requires Accepts(s, room, epoch)
    ensures var t := PeersChanged(s, room, epoch, peers, now, unix).0;
      t.me == s.me && t.room == s.room && t.floor == s.floor && t.myTracks == s.myTracks
  {
    hide TrustState, Rekey, TakeEarly, StashState;
    var trusting := TrustState(s, room, peers, now, unix);
    TrustStands(s, room, peers, now, unix);
    RekeyStays(trusting, room, epoch, now);
    EarlyTouches(Rekey(trusting, room, epoch, now).0, now);
  }

  lemma RekeyStays(s: Keys, room: RoomId, epoch: Epoch, now: Time)
    ensures var t := Rekey(s, room, epoch, now).0;
      && t.me == s.me && t.room == s.room && t.floor == s.floor && t.myTracks == s.myTracks
      && (s.room.None? ==> t.floors == s.floors)
  {
    hide StartEpoch, WrapForNewPeers, NeedsNewSecret;
    StartRaises(s, epoch, now);
    StartTouches(s, epoch, now);
    WrapTouches(if NeedsNewSecret(s, epoch) then StartEpoch(s, epoch, now) else s, room);
  }

  /** An answer puts a client where it says, with the tracks it gives unless a newer state of the
      room overtook it. Entering the room, a client is as deaf as it was. */
  lemma AnswerPlaces(w: World, k: Keys, op: Op, epoch: Epoch)
    requires op.Placement?
    ensures var t := Apply(k, Step(op, w.now, w.unix)).0;
      && t.room == op.to
      && t.myTracks == (if op.to.Some? && op.to == k.room && op.epoch < k.epoch then k.myTracks else op.tracks)
      && (op.to == Some(w.room) && (k.room.Some? ==> k.room == op.to) ==> (IsDeaf(w, epoch, t) <==> IsDeaf(w, epoch, k)))
  {
    hide PeersChanged, Place;
    var Placement(to, e, tracks, peers) := op;
    PlacedStands(k, to, tracks);
    if to.Some? && !(to == k.room && e < k.epoch) {
      var placed := Place(k, to, tracks);
      var entered := PeersChanged(placed, to.value, e, peers, w.now, w.unix).0;
      RoomStays(placed, to.value, e, peers, w.now, w.unix);
      if entered.stashed.Some? {
        RoomStays(entered.(stashed := None), to.value, entered.stashed.value.epoch, entered.stashed.value.peers, w.now, w.unix);
      }
    }
  }

  lemma PlacedStands(k: Keys, room: Option<RoomId>, tracks: Option<Tracks>)
    ensures var t := Place(k, room, tracks);
      && t.me == k.me && t.room == room && t.myTracks == tracks && t.present == k.present && t.stashed == k.stashed
      && t.floors == k.floors && t.epoch == (if room == k.room then k.epoch else 0)
      && t.floor == (if room == k.room then k.floor
                     else if room.Some? && (k.me, room.value) in k.floors then Some(k.floors[(k.me, room.value)]) else None)
  {
  }

  // ---- Opening what is wrapped to us ---------------------------------------------------

  /** A client that `blob`, wrapped to it by `a` under `epoch`, can't be refused by. */
  ghost predicate CanTake(w: World, u: UserId, k: Keys, a: UserId, epoch: Epoch) {
    && u in w.accounts && a in w.accounts
    && k.me == u && k.server == w.server && k.encryption == KeyOf(w, u)
    && (k.room.Some? ==> k.room.value == w.room)
    && k.epoch <= epoch && (k.floor.Some? ==> k.floor.value < epoch)
    && (a in k.peers ==> k.peers[a].encryptionKey == KeyOf(w, a))
  }

  lemma Judged(w: World, u: UserId, k: Keys, a: UserId, epoch: Epoch, secret: Secret)
    requires CanTake(w, u, k, a, epoch)
    ensures var v := Judge(k, a, epoch, WrapOf(w, a, u, epoch, secret), w.now);
      v == if k.room.Some? && a in k.peers && epoch == k.epoch then Store(secret, None) else Hold
  {
  }

  lemma AbsorbKeepsReached(w: World, u: UserId, k: Keys, a: UserId, epoch: Epoch, secret: Secret)
    requires CanTake(w, u, k, a, epoch) && EarlyAreFresh(w, k.early)
    requires Reached(k, a, epoch, WrapOf(w, a, u, epoch, secret))
    ensures Reached(TakeEarly(k, w.now), a, epoch, WrapOf(w, a, u, epoch, secret))
  {
    hide Judge, CachedWithout, ReceivedWith;
    var x := (a, epoch);
    Judged(w, u, k, a, epoch, secret);
    ReceivedHas(k, Arrived(k, k.early.Keys, w.now), x, w.now);
    if x in k.early {
      assert JudgeEarly(k, x, w.now) == Judge(k, a, epoch, WrapOf(w, a, u, epoch, secret), w.now);
    }
  }

  lemma ReceivedHas(k: Keys, arrived: set<SenderAt>, x: SenderAt, now: Time)
    requires forall j :: j in arrived ==> j in k.early && JudgeEarly(k, j, now).Store?
    ensures var received := ReceivedWith(k, arrived, now);
      && (x in arrived ==> x in received && received[x].secret == JudgeEarly(k, x, now).secret)
      && (x !in arrived && x in k.received ==> x in received && received[x].secret == k.received[x].secret)
  {
    hide Judge;
  }

  lemma StateKeepsReached(w: World, at: Epoch, members: Members, u: UserId, s: Keys, epoch: Epoch, peers: seq<Peer>,
                          a: UserId, secret: Secret)
    requires KeysOk(w, at, members, u, s) && ListOk(w, at, members, u, epoch, peers) && a in w.accounts && !IsDeaf(w, at, s)
    requires u in w.accounts && Reached(s, a, at, WrapOf(w, a, u, at, secret))
    ensures Reached(PeersChanged(s, w.room, epoch, peers, w.now, w.unix).0, a, at, WrapOf(w, a, u, at, secret))
  {
    hide Inv, StatesOk, TrustState, Rekey, TakeEarly, TrustedNow, ListOk, Raise;
    var blob := WrapOf(w, a, u, at, secret);
    if Accepts(s, w.room, epoch) {
      var trusting := TrustState(s, w.room, peers, w.now, w.unix);
      var rekeyed := Rekey(trusting, w.room, epoch, w.now).0;
      TrustStands(s, w.room, peers, w.now, w.unix);
      TrustRefusesNobody(s, w.room, peers, w.now, w.unix);
      TrustedAreOk(w, at, members, u, s, epoch, peers);
      TrustKeepsSecrets(s, w.room, peers, w.now, w.unix);
      SameReached(s, trusting, a, at, blob);
      RekeyTouches(trusting, w.room, epoch, w.now);
      RekeyKeepsSecrets(trusting, w.room, epoch, w.now);
      SameReached(trusting, rekeyed, a, at, blob);
      EpochOk(w, at, members, u, epoch, peers);
      AbsorbKeepsReached(w, u, rekeyed, a, at, secret);
    } else {
      RefusedStates(s, w.room, epoch, peers, w.now, w.unix);
    }
  }

  // ---- The other steps -----------------------------------------------------------------

  lemma KeyReaches(w: World, at: Epoch, members: Members, u: UserId, k: Keys, a: UserId, secret: Secret)
    requires KeysOk(w, at, members, u, k) && a in w.accounts && u in w.accounts && !IsDeaf(w, at, k)
    requires HasRoomForEarly(k, KeyFrom(a, at, WrapOf(w, a, u, at, secret)))
    ensures Reached(SenderKey(k, a, at, WrapOf(w, a, u, at, secret), w.now).0, a, at, WrapOf(w, a, u, at, secret))
  {
    hide KeysOk, IsDeaf, CanTake, Judge, Forget;
    CanTakeNow(w, at, members, u, k, a);
    Judged(w, u, k, a, at, secret);
    HeldNowhere(w, at, members, u, k, a);
  }

  lemma CanTakeNow(w: World, at: Epoch, members: Members, u: UserId, k: Keys, a: UserId)
    requires KeysOk(w, at, members, u, k) && a in w.accounts && u in w.accounts && !IsDeaf(w, at, k)
    ensures CanTake(w, u, k, a, at)
  {
    hide Inv, StatesOk;
  }

  /** What we can open at once isn't held as well. */
  lemma HeldNowhere(w: World, at: Epoch, members: Members, u: UserId, k: Keys, a: UserId)
    requires KeysOk(w, at, members, u, k)
    ensures k.room.Some? && a in k.peers && k.epoch == at ==> (a, at) !in k.early
  {
    hide Core, HasSecret, StatesOk, PeersOk;
  }

  lemma OtherKeyKeepsReached(k: Keys, sender: UserId, epoch: Epoch, blob: Blob, now: Time, a: UserId, at: Epoch, mine: Blob)
    requires Reached(k, a, at, mine) && (sender, epoch) != (a, at)
    ensures Reached(SenderKey(k, sender, epoch, blob, now).0, a, at, mine)
  {
    hide Judge, StoreKey;
    var v := Judge(k, sender, epoch, blob, now);
    if v.Store? {
      StoreKeepsReached(k, (sender, epoch), Received(v.secret, v.retireAt), now, a, at, mine);
    }
  }

  lemma StoreKeepsReached(k: Keys, x: SenderAt, r: Received, now: Time, a: UserId, at: Epoch, mine: Blob)
    requires Reached(k, a, at, mine) && x != (a, at)
    ensures Reached(StoreKey(k, x, r, now), a, at, mine)
  {
    hide Forget;
  }

  lemma ShownKeepsReached(w: World, at: Epoch, members: Members, u: UserId, k: Keys, user: UserId, where: Option<RoomId>,
                          a: UserId, secret: Secret)
    requires KeysOk(w, at, members, u, k) && a in w.accounts && u in w.accounts && !IsDeaf(w, at, k)
    requires Reached(k, a, at, WrapOf(w, a, u, at, secret))
    ensures KeysOk(w, at, members, u, SetPresence(k, user, where).0)
    ensures Reached(SetPresence(k, user, where).0, a, at, WrapOf(w, a, u, at, secret))
    ensures Reached(ReapplyPeers(SetPresence(k, user, where).0, w.now, w.unix).0, a, at, WrapOf(w, a, u, at, secret))
  {
    hide PeersChanged, KeysOk, ListOk, IsDeaf, SetPresence, Reached, WrapOf;
    var t := SetPresence(k, user, where).0;
    PresenceOk(w, at, members, u, k, user, where);
    PresenceTouches(k, user, where);
    SameReached(k, t, a, at, WrapOf(w, a, u, at, secret));
    PresenceIsAsDeaf(w, at, k, user, where);
    if t.room.Some? {
      OwnStateOk(w, at, members, u, t);
      StateKeepsReached(w, at, members, u, t, t.epoch, t.roomPeers, a, secret);
    }
  }

  lemma PresenceIsAsDeaf(w: World, at: Epoch, k: Keys, user: UserId, where: Option<RoomId>)
    ensures IsDeaf(w, at, SetPresence(k, user, where).0) <==> IsDeaf(w, at, k)
  {
  }

  lemma OwnStateOk(w: World, at: Epoch, members: Members, u: UserId, k: Keys)
    requires KeysOk(w, at, members, u, k) && k.room.Some?
    ensures k.room.value == w.room && ListOk(w, at, members, u, k.epoch, k.roomPeers)
  {
    hide Inv, ListOk;
  }

  lemma PlaceKeepsReached(w: World, at: Epoch, members: Members, u: UserId, k: Keys, tracks: Option<Tracks>, a: UserId, blob: Blob)
    requires KeysOk(w, at, members, u, k) && Reached(k, a, at, blob)
    ensures Reached(Place(k, Some(w.room), tracks), a, at, blob)
  {
    hide CacheIsTrue, OldOnesRetire, RetireInTime, OwnersAreTrue, StatesOk, PeersOk;
  }

  lemma AnswerKeepsReached(w: World, at: Epoch, members: Members, u: UserId, k: Keys, op: Op, a: UserId, secret: Secret)
    requires KeysOk(w, at, members, u, k) && a in w.accounts && u in w.accounts && AnswerOk(w, at, members, u, op) && op.to.Some?
    requires !IsDeaf(w, at, k) && Reached(k, a, at, WrapOf(w, a, u, at, secret))
    ensures Reached(Apply(k, Step(op, w.now, w.unix)).0, a, at, WrapOf(w, a, u, at, secret))
  {
    hide PeersChanged, ListOk, Place, Core;
    var Placement(to, epoch, tracks, peers) := op;
    if !(to == k.room && epoch < k.epoch) {
      var placed := Place(k, to, tracks);
      EpochOk(w, at, members, u, epoch, peers);
      PlaceOk(w, at, members, u, k, to, tracks, epoch);
      PlaceKeepsReached(w, at, members, u, k, tracks, a, WrapOf(w, a, u, at, secret));
      var entered := PeersChanged(placed, w.room, epoch, peers, w.now, w.unix).0;
      StateOk(w, at, members, u, placed, epoch, peers);
      PlacedIsAsDeaf(w, at, k, tracks);
      StateKeepsReached(w, at, members, u, placed, epoch, peers, a, secret);
      RoomStays(placed, w.room, epoch, peers, w.now, w.unix);
      UnstashOk(w, at, members, u, entered);
      if entered.stashed.Some? {
        StateKeepsReached(w, at, members, u, entered.(stashed := None), entered.stashed.value.epoch, entered.stashed.value.peers, a, secret);
      }
    }
  }

  lemma PlacedIsAsDeaf(w: World, at: Epoch, k: Keys, tracks: Option<Tracks>)
    requires k.room.Some? ==> k.room.value == w.room
    ensures IsDeaf(w, at, Place(k, Some(w.room), tracks)) <==> IsDeaf(w, at, k)
  {
  }

  /** A kick takes every stored secret. What was meant for a later epoch than ours is still held,
      and of ours we are deaf from now on. */
  lemma KickKeepsReached(w: World, at: Epoch, members: Members, u: UserId, k: Keys, a: UserId, blob: Blob)
    requires KeysOk(w, at, members, u, k) && k.room.Some? && Reached(k, a, at, blob) && 0 < at
    requires !IsDeaf(w, at, Apply(k, Step(TO_LOBBY, w.now, w.unix)).0)
    ensures Reached(Apply(k, Step(TO_LOBBY, w.now, w.unix)).0, a, at, blob)
  {
    hide CacheIsTrue, OldOnesRetire, RetireInTime, OwnersAreTrue, StatesOk, PeersOk, IsDeaf;
    KickDeafens(w, at, members, u, k);
  }

  lemma KickDeafens(w: World, at: Epoch, members: Members, u: UserId, k: Keys)
    requires KeysOk(w, at, members, u, k) && k.room.Some? && 0 < at
    ensures IsDeaf(w, at, Apply(k, Step(TO_LOBBY, w.now, w.unix)).0) <==> IsDeaf(w, at, k) || k.epoch == at
  {
    hide Inv, StatesOk, PeersOk, EarlyAreFresh;
  }
}
