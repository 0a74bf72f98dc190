/**
 How long the secrets of others last, exactly what is read and sent with, and what leaving a room
 leaves behind.
 */
module KeyGrace {
  import opened Collections
  import opened KeyModel
  import opened KeyInvariants
  import opened KeyTheorems
  import opened KeyRuns
  import opened KeyTrust
  import opened KeyLaws

  // ---- What a room state does to a secret ------------------------------------------------

  /** The secret with a time to go, if it had none. */
  ghost predicate IsRetired(before: Received, after: Received, now: Time) {
    after == Received(before.secret, if before.retireAt.Some? then before.retireAt else Some(now + 2_000_000_000))
  }

  lemma RekeyReceived(s: Keys, room: RoomId, epoch: Epoch, now: Time)
    ensures Rekey(s, room, epoch, now).0.received == if epoch == s.epoch then s.received else RetireBefore(s.received, epoch, now)
    ensures Rekey(s, room, epoch, now).0.early == s.early
  {
    hide WrapForNewPeers, PeerSet, RetireBefore, Raise, DeriveAll;
    WrapReceives(if NeedsNewSecret(s, epoch) then StartEpoch(s, epoch, now) else s, room);
  }

  lemma WrapReceives(s: Keys, room: RoomId)
    ensures WrapForNewPeers(s, room).0.received == s.received && WrapForNewPeers(s, room).0.early == s.early
  {
    hide WrapAll, OwnersLeft, GivenTo, Refused, RefusedKeys;
  }

  lemma EarlyLeaves(s: Keys, now: Time, k: SenderAt)
    requires k in s.received && k !in s.early
    ensures var t := TakeEarly(s, now);
      && k in t.received && k !in t.early
      && (t.received[k] == s.received[k] || t.received[k] == Retired(s.received[k], now))
      && ((forall e :: (k.0, e) !in s.early) ==> t.received[k] == s.received[k])
  {
    hide JudgeEarly;
    var arrived := Arrived(s, s.early.Keys, now);
    assert forall e :: (k.0, e) in arrived ==> (k.0, e) in s.early;
  }

  /** Whether a room state gives everything of `k` a time to go, but for what came early. */
  ghost predicate Retires(s: Keys, room: RoomId, epoch: Epoch, peers: seq<Peer>, now: Time, unix: nat, k: SenderAt) {
    k.0 in Departed(s.peers, TrustState(s, room, peers, now, unix).peers) || (epoch != s.epoch && k.1 < epoch)
  }

  lemma RekeyedReceived(s: Keys, room: RoomId, epoch: Epoch, peers: seq<Peer>, now: Time, unix: nat, k: SenderAt)
    requires k in s.received
    ensures var t := Rekey(TrustState(s, room, peers, now, unix), room, epoch, now).0;
      && t.early == s.early && k in t.received
      && t.received[k] == if Retires(s, room, epoch, peers, now, unix, k) then Retired(s.received[k], now) else s.received[k]
  {
    hide TrustedNow, Owners, StillUnwrappable, Departed, Rekey;
    RekeyReceived(TrustState(s, room, peers, now, unix), room, epoch, now);
  }

  lemma StateReceived(s: Keys, room: RoomId, epoch: Epoch, peers: seq<Peer>, now: Time, unix: nat, k: SenderAt)
    requires Accepts(s, room, epoch) && k in s.received && k !in s.early
    ensures var t := PeersChanged(s, room, epoch, peers, now, unix).0;
      && k in t.received && k !in t.early
      && (t.received[k] == s.received[k] || IsRetired(s.received[k], t.received[k], now))
      && (Retires(s, room, epoch, peers, now, unix, k) ==> IsRetired(s.received[k], t.received[k], now))
      && (!Retires(s, room, epoch, peers, now, unix, k) && (forall e :: (k.0, e) !in s.early) ==> t.received[k] == s.received[k])
  {
    hide TrustState, Rekey, TakeEarly, Retires;
    var rekeyed := Rekey(TrustState(s, room, peers, now, unix), room, epoch, now).0;
    RekeyedReceived(s, room, epoch, peers, now, unix, k);
    EarlyLeaves(rekeyed, now, k);
  }

  /** Once a user is listed under another identity only, or no more, every secret they had given us has
      two seconds left, unless it had less. */
  lemma AnotherIdentityRetires(s: Keys, room: RoomId, epoch: Epoch, peers: seq<Peer>, now: Time, unix: nat, u: UserId, e: Epoch)
    requires Accepts(s, room, epoch) && u in s.peers && (u, e) in s.received && (u, e) !in s.early
    requires forall p :: p in peers && p.user == u ==> p.identityKey != s.peers[u].identityKey
    ensures var t := PeersChanged(s, room, epoch, peers, now, unix).0;
      (u, e) in t.received && IsRetired(s.received[(u, e)], t.received[(u, e)], now)
  {
    hide PeersChanged, Listed, Owners, IsInvalid, IsTrusted, StillUnwrappable, RetireDeparted;
    StateReceived(s, room, epoch, peers, now, unix, (u, e));
    var trusting := TrustState(s, room, peers, now, unix);
    if !IsInvalid(s, peers) && u in trusting.peers {
      TrustedAreListed(s.(unwrappable := Listed(s.unwrappable, peers)), room, peers, unix, u);
    }
  }

  /** While a peer stays trusted under one identity, and the room at its epoch, what they gave us stays
      as it is, unless another key of theirs was held early. */
  lemma SameIdentityKeeps(s: Keys, room: RoomId, peers: seq<Peer>, now: Time, unix: nat, u: UserId, e: Epoch)
    requires OnlyWeakFail(s) && Accepts(s, room, s.epoch) && u in s.peers && (u, e) in s.received
    requires forall f :: (u, f) !in s.early
    requires var t := PeersChanged(s, room, s.epoch, peers, now, unix).0;
             u in t.peers && t.peers[u].identityKey == s.peers[u].identityKey
    ensures var t := PeersChanged(s, room, s.epoch, peers, now, unix).0;
      (u, e) in t.received && t.received[(u, e)] == s.received[(u, e)]
  {
    hide TrustState, Rekey, TakeEarly, OnlyWeakFail;
    var trusting := TrustState(s, room, peers, now, unix);
    var rekeyed := Rekey(trusting, room, s.epoch, now).0;
    StateReceived(s, room, s.epoch, peers, now, unix, (u, e));
    TrustsWeakly(s, room, peers, now, unix);
    RekeyLeaves(trusting, room, s.epoch, now);
    EarlyTouches(rekeyed, now);
  }

  lemma TrustsWeakly(s: Keys, room: RoomId, peers: seq<Peer>, now: Time, unix: nat)
    requires OnlyWeakFail(s)
    ensures OnlyWeakFail(TrustState(s, room, peers, now, unix))
  {
    hide TrustedNow, Owners, RetireDeparted, IsInvalid;
  }

  // ---- Early keys ------------------------------------------------------------------------

  /** Of the keys that came early, a room state stores just some that came less than two seconds ago,
      were wrapped by a peer trusted now for us here, and are recent; and it goes on holding none that
      is older. */
  lemma OnlyFreshEarlyKeysAreStored(s: Keys, room: RoomId, epoch: Epoch, peers: seq<Peer>, now: Time, unix: nat, k: SenderAt)
    requires Accepts(s, room, epoch)
    ensures var t := PeersChanged(s, room, epoch, peers, now, unix).0;
      && (k in t.early ==> k in s.early && t.early[k] == s.early[k] && now - s.early[k].0 < 2_000_000_000)
      && (k in t.received && k !in s.received ==>
            && k in s.early && now - s.early[k].0 < 2_000_000_000
            && t.room.Some? && k.0 in t.peers && k.1 <= t.epoch && IsRecent(t, k.1)
            && IsForUs(t, k.0, k.1, s.early[k].1, t.received[k].secret))
  {
    hide TrustState, Rekey, Judge;
    var trusting := TrustState(s, room, peers, now, unix);
    var rekeyed := Rekey(trusting, room, epoch, now).0;
    var t := PeersChanged(s, room, epoch, peers, now, unix).0;
    TrustReceives(s, room, peers, now, unix);
    RekeyReceived(trusting, room, epoch, now);
    if k in t.received && k !in s.received {
      assert k in Arrived(rekeyed, rekeyed.early.Keys, now);
      StoredExactly(rekeyed, k.0, k.1, s.early[k].1, now, t.received[k].secret);
    }
  }

  lemma TrustReceives(s: Keys, room: RoomId, peers: seq<Peer>, now: Time, unix: nat)
    ensures var t := TrustState(s, room, peers, now, unix); t.early == s.early && t.received.Keys == s.received.Keys
  {
    hide TrustedNow, Owners, StillUnwrappable, Departed;
    SameSet(TrustState(s, room, peers, now, unix).received.Keys, s.received.Keys);
  }

  // ---- Two seconds of grace --------------------------------------------------------------

  /** The secret is there, and stays until `deadline` at least. */
  ghost predicate Lasts(s: Keys, k: SenderAt, secret: Secret, deadline: Time) {
    && k in s.received && s.received[k].secret == secret && k !in s.early
    && (s.received[k].retireAt.Some? ==> deadline <= s.received[k].retireAt.value)
  }

  /** Nothing comes in its place, and we stay in the room. */
  ghost predicate Spares(s: Keys, step: Step, k: SenderAt) {
    match step.op
    case Placement(to, _, _, _) => to == s.room && to.Some?
    case KeyFrom(sender, epoch, _) => (sender, epoch) != k
    case Reconnected(_) => false
    case _ => true
  }

  lemma StateLasts(s: Keys, room: RoomId, epoch: Epoch, peers: seq<Peer>, now: Time, unix: nat, k: SenderAt, secret: Secret, deadline: Time)
    requires Lasts(s, k, secret, deadline) && deadline <= now + 2_000_000_000
    ensures Lasts(PeersChanged(s, room, epoch, peers, now, unix).0, k, secret, deadline)
  {
    hide PeersChanged;
    if Accepts(s, room, epoch) {
      StateReceived(s, room, epoch, peers, now, unix, k);
    } else {
      NotAccepted(s, room, epoch, peers, now, unix);
    }
  }

  lemma PlacementLasts(s: Keys, to: Option<RoomId>, epoch: Epoch, tracks: Option<Tracks>, peers: seq<Peer>, now: Time, unix: nat,
                       k: SenderAt, secret: Secret, deadline: Time)
    requires Lasts(s, k, secret, deadline) && deadline <= now + 2_000_000_000 && to == s.room && to.Some?
    ensures Lasts(ApplyPlacement(s, to, epoch, tracks, peers, now, unix).0, k, secret, deadline)
  {
    hide PeersChanged;
    var placed := Place(s, to, tracks);
    var entered := PeersChanged(placed, to.value, epoch, peers, now, unix).0;
    StateLasts(placed, to.value, epoch, peers, now, unix, k, secret, deadline);
    if entered.stashed.Some? {
      var stash := entered.stashed.value;
      StateLasts(entered.(stashed := None), to.value, stash.epoch, stash.peers, now, unix, k, secret, deadline);
    }
  }

  lemma KeyLasts(s: Keys, sender: UserId, epoch: Epoch, blob: Blob, now: Time, k: SenderAt, secret: Secret, deadline: Time)
    requires Lasts(s, k, secret, deadline) && deadline <= now + 2_000_000_000 && (sender, epoch) != k
    ensures Lasts(SenderKey(s, sender, epoch, blob, now).0, k, secret, deadline)
  {
    hide SenderKey, Judge;
    RefusedExactly(s, sender, epoch, blob, now);
    if blob.Length() == 80 && !Judge(s, sender, epoch, blob, now).Refuse? {
      if Judge(s, sender, epoch, blob, now).Store? {
        StoredIs(s, sender, epoch, blob, now, k);
      } else {
        HeldExactly(s, sender, epoch, blob, now);
      }
    }
  }

  lemma ShownLasts(s: Keys, user: UserId, at: Option<RoomId>, now: Time, unix: nat, k: SenderAt, secret: Secret, deadline: Time)
    requires Lasts(s, k, secret, deadline) && deadline <= now + 2_000_000_000
    ensures var t := SetPresence(s, user, at).0;
      Lasts(t, k, secret, deadline) && Lasts(ReapplyPeers(t, now, unix).0, k, secret, deadline)
  {
    hide PeersChanged, PresenceIsFull;
    var t := SetPresence(s, user, at).0;
    if t.room.Some? {
      StateLasts(t, t.room.value, t.epoch, t.roomPeers, now, unix, k, secret, deadline);
    }
  }

  lemma StepLasts(s: Keys, step: Step, k: SenderAt, secret: Secret, deadline: Time)
    requires Lasts(s, k, secret, deadline) && step.now < deadline <= step.now + 2_000_000_000 && Spares(s, step, k)
    ensures Lasts(Apply(s, step).0, k, secret, deadline)
  {
    hide PeersChanged, ApplyPlacement, SenderKey, SetPresence, ReapplyPeers, Tick, RecvKey, ReplaceEncryption, Lasts;
    match step.op
    case Shown(user, at) => ShownLasts(s, user, at, step.now, step.unix, k, secret, deadline);
    case RoomState(room, epoch, peers) => StateLasts(s, room, epoch, peers, step.now, step.unix, k, secret, deadline);
    case Placement(to, epoch, tracks, peers) => PlacementLasts(s, to, epoch, tracks, peers, step.now, step.unix, k, secret, deadline);
    case KeyFrom(sender, epoch, blob) => KeyLasts(s, sender, epoch, blob, step.now, k, secret, deadline);
    case _ => OthersLast(s, step, k, secret, deadline);
  }

  lemma OthersLast(s: Keys, step: Step, k: SenderAt, secret: Secret, deadline: Time)
    requires Lasts(s, k, secret, deadline) && step.now < deadline && (step.op.Read? || step.op.Ticked? || step.op.Renewed?)
    ensures Lasts(Apply(s, step).0, k, secret, deadline)
  {
    hide BelowFloor, CacheHit, Tick;
    TickDropsExactly(s, step.now, k);
  }

  /** A tick drops exactly the secrets whose time has come and the early keys of two seconds ago. */
  lemma TickDropsExactly(s: Keys, now: Time, k: SenderAt)
    ensures var t := Tick(s, now);
      && (k in t.received <==> k in s.received && (s.received[k].retireAt.Some? ==> now < s.received[k].retireAt.value))
      && (k in t.received ==> t.received[k] == s.received[k])
      && (k in t.early <==> k in s.early && now - s.early[k].0 < 2_000_000_000)
      && (k in t.early ==> t.early[k] == s.early[k])
      && t == s.(retiredEncryption := t.retiredEncryption, received := t.received, recvKeys := t.recvKeys, early := t.early)
  {
    hide CachedFor;
  }

  ghost predicate SparesAll(s: Keys, steps: seq<Step>, k: SenderAt)
    decreases |steps|
  {
    steps != [] ==> Spares(s, steps[0], k) && SparesAll(Apply(s, steps[0]).0, steps[1..], k)
  }

  /** A secret without a time to go stays for the next two seconds, whatever room states, epochs and
      newer keys come, as long as we stay in the room and none of its own epoch takes its place: so
      what is under way when the epoch moves can still be heard. */
  lemma {:induction false} SecretsOutliveTheirEpoch(s: Keys, steps: seq<Step>, clock: Time, start: Time, k: SenderAt)
    requires k in s.received && k !in s.early
    requires s.received[k].retireAt.Some? ==> start + 2_000_000_000 <= s.received[k].retireAt.value
    requires start <= clock && TimeFlows(steps, clock) && SparesAll(s, steps, k)
    requires forall i :: 0 <= i < |steps| ==> steps[i].now < start + 2_000_000_000
    ensures k in Run(s, steps).received && Run(s, steps).received[k].secret == s.received[k].secret
    decreases |steps|
  {
    hide Apply, Spares;
    if steps != [] {
      var t := Apply(s, steps[0]).0;
      StepLasts(s, steps[0], k, s.received[k].secret, start + 2_000_000_000);
      SecretsOutliveTheirEpoch(t, steps[1..], steps[0].now, start, k);
    }
  }

  // ---- Reading and sending ---------------------------------------------------------------

  /** The key that a peer's secret of an epoch gives for one of their tracks. */
  ghost predicate Gives(s: Keys, u: UserId, id: MediaId, epoch: Epoch, key: TrackKey) {
    u in s.peers && id in TrackIds(s.peers[u].tracks) && (u, epoch) in s.received && key == Derived(s.received[(u, epoch)].secret, id)
  }

  /** A media id is read with the key that the secret of the one peer gives who sends on it, of that
      epoch, if it is recent; and with nothing else. */
  lemma ReadsExactly(s: Keys, id: MediaId, epoch: Epoch, clock: Time, key: TrackKey)
    requires Inv(s, clock)
    ensures RecvKey(s, id, epoch).1 == Some(key) <==>
      IsRecent(s, epoch) && exists u :: Gives(s, u, id, epoch, key)
  {
    hide Settled, EarlyOnesWait, CacheHit, TrackIds;
    CacheIsInvisible(s, id, epoch, clock);
    if id in s.owners {
      assert s.owners[id] in s.peers && id in TrackIds(s.peers[s.owners[id]].tracks);
      assert RecvKey(s, id, epoch).1 == Some(key) ==> Gives(s, s.owners[id], id, epoch, key);
    }
    forall u | Gives(s, u, id, epoch, key) ensures id in s.owners && s.owners[id] == u {
    }
  }

  /** We send on exactly our own tracks, while we have a secret, with the key it gives. */
  lemma SendsExactly(s: Keys, id: MediaId, clock: Time, epoch: Epoch, key: TrackKey)
    requires Inv(s, clock)
    ensures SendKey(s, id) == Some((epoch, key)) <==>
      && s.mySecret.Some? && s.myTracks.Some? && id in TrackIds(s.myTracks.value)
      && epoch == s.epoch && key == Derived(s.mySecret.value, id)
  {
    hide Core, EarlyOnesWait, TrackIds;
    var ids := MyTrackIds(s);
    if id in ids {
      var i :| 0 <= i < |ids| && ids[i] == id;
      assert id in IdSet(ids);
    }
  }

  // ---- Leaving and entering --------------------------------------------------------------

  /** In the lobby there is nobody to trust, nothing to read or send with and nothing stashed. */
  lemma LeavingForgets(s: Keys, epoch: Epoch, tracks: Option<Tracks>, peers: seq<Peer>, now: Time, unix: nat, id: MediaId, e: Epoch)
    requires s.room.Some?
    ensures var (t, requests) := ApplyPlacement(s, None, epoch, tracks, peers, now, unix);
      && t.room == None && t.peers == map[] && t.received == map[] && t.mySecret == None && t.stashed == None && requests == []
      && RecvKey(t, id, e).1 == None && SendKey(t, id) == None
  {
  }

  /** A secret stored while in one room is not one in the next: what is stored right after entering
      came early. */
  lemma EnteringForgets(s: Keys, room: RoomId, epoch: Epoch, tracks: Option<Tracks>, peers: seq<Peer>, now: Time, unix: nat, k: SenderAt)
    requires s.room != Some(room) && 0 <= epoch
    ensures k in ApplyPlacement(s, Some(room), epoch, tracks, peers, now, unix).0.received ==> k in s.early
  {
    hide PeersChanged;
    var placed := Place(s, Some(room), tracks);
    var entered := PeersChanged(placed, room, epoch, peers, now, unix).0;
    OnlyFreshEarlyKeysAreStored(placed, room, epoch, peers, now, unix, k);
    StateStays(placed, room, epoch, peers, now, unix);
    if entered.stashed.Some? {
      var caught, stash := entered.(stashed := None), entered.stashed.value;
      if Accepts(caught, room, stash.epoch) {
        OnlyFreshEarlyKeysAreStored(caught, room, stash.epoch, stash.peers, now, unix, k);
      } else {
        NotAccepted(caught, room, stash.epoch, stash.peers, now, unix);
      }
    }
  }

  /** A room state that comes before the placement it belongs to is applied with it, if it is newer;
      only a newer one of that room or one of another takes its place meanwhile. */
  lemma StashedStateIsApplied(s: Keys, room: RoomId, epoch: Epoch, peers: seq<Peer>, older: Epoch, tracks: Option<Tracks>,
                              listed: seq<Peer>, now: Time, unix: nat)
    requires s.room != Some(room) && 0 <= older < epoch
    requires s.stashed.Some? && s.stashed.value.room == room ==> s.stashed.value.epoch < epoch
    ensures var told := PeersChanged(s, room, epoch, peers, now, unix).0;
            var t := ApplyPlacement(told, Some(room), older, tracks, listed, now, unix).0;
      && told == s.(stashed := Some(Stash(room, epoch, peers)))
      && t.room == Some(room) && t.epoch == epoch && t.roomPeers == peers && t.stashed == None
  {
    hide TrustState, Rekey, TakeEarly;
    var told := s.(stashed := Some(Stash(room, epoch, peers)));
    var placed := Place(told, Some(room), tracks);
    var entered := PeersChanged(placed, room, older, listed, now, unix).0;
    StateStays(placed, room, older, listed, now, unix);
    StateEpoch(placed, room, older, listed, now, unix);
    StateStays(entered.(stashed := None), room, epoch, peers, now, unix);
    StateEpoch(entered.(stashed := None), room, epoch, peers, now, unix);
  }

  /** One that is no newer than the placement is let go: the list that came with the placement counts. */
  lemma OlderStashIsLetGo(s: Keys, room: RoomId, epoch: Epoch, tracks: Option<Tracks>, listed: seq<Peer>, now: Time, unix: nat)
    requires s.room != Some(room) && 0 <= epoch
    requires s.stashed.Some? ==> s.stashed.value.room != room || s.stashed.value.epoch <= epoch
    ensures var t := ApplyPlacement(s, Some(room), epoch, tracks, listed, now, unix).0;
      t.room == Some(room) && t.epoch == epoch && t.roomPeers == listed && t.stashed == None
  {
    hide TrustState, Rekey, TakeEarly;
    var placed := Place(s, Some(room), tracks);
    StateStays(placed, room, epoch, listed, now, unix);
    StateEpoch(placed, room, epoch, listed, now, unix);
  }

  lemma StateEpoch(s: Keys, room: RoomId, epoch: Epoch, peers: seq<Peer>, now: Time, unix: nat)
    requires Accepts(s, room, epoch)
    ensures PeersChanged(s, room, epoch, peers, now, unix).0.epoch == epoch
  {
    hide TrustState, Rekey, TakeEarly;
    var trusting := TrustState(s, room, peers, now, unix);
    RekeyPublishes(trusting, room, epoch, now);
    EarlyTouches(Rekey(trusting, room, epoch, now).0, now);
  }

  /** An older room state, of the room we are in or of the one stashed, changes nothing. */
  lemma OlderStatesAreIgnored(s: Keys, room: RoomId, epoch: Epoch, peers: seq<Peer>, now: Time, unix: nat)
    requires (s.room == Some(room) && epoch < s.epoch)
      || (s.room != Some(room) && s.stashed.Some? && s.stashed.value.room == room && epoch <= s.stashed.value.epoch)
    ensures PeersChanged(s, room, epoch, peers, now, unix) == (s, None)
  {
  }

  /** Where users are shown is noted for 260 of them; and it is told whether that moved someone else
      into our room or out of it. */
  lemma PresencesAreNoted(s: Keys, user: UserId, at: Option<RoomId>, other: UserId)
    ensures var t := SetPresence(s, user, at).0;
      && (other != user ==> (other in t.present <==> other in s.present) && (other in s.present ==> t.present[other] == s.present[other]))
      && (at.None? ==> user !in t.present)
      && (at.Some? && (user in s.present || |s.present| < 260) ==> user in t.present && t.present[user] == at.value)
      && (at.Some? && user !in s.present && |s.present| >= 260 ==> t.present == s.present)
      && t == s.(present := t.present)
  {
    PresenceKeepsLists(s, user, at);
  }

  ghost predicate IsIn(present: map<UserId, RoomId>, user: UserId, room: Option<RoomId>) {
    user in present && room == Some(present[user])
  }

  lemma MovesAreTold(s: Keys, user: UserId, at: Option<RoomId>)
    ensures var (t, moved) := SetPresence(s, user, at);
      moved == (user != s.me && s.room.Some? && IsIn(s.present, user, s.room) != IsIn(t.present, user, s.room))
  {
    PresencesAreNoted(s, user, at, user);
  }
}
