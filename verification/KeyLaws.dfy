/**
 What becomes of the secrets of others, written on the fields: exactly when one is stored, held or
 refused, how long it lasts, and exactly what is read and sent with.
 */
module KeyLaws {
  import opened Collections
  import opened KeyModel
  import opened KeyInvariants
  import opened KeyTheorems
  import opened KeyRuns
  import opened KeyTrust

  // ---- One sender key --------------------------------------------------------------------

  /** Wrapped by the sender for us, in this room, for this epoch, to an encryption key we still have. */
  ghost predicate IsForUs(s: Keys, sender: UserId, epoch: Epoch, blob: Blob, secret: Secret)
    requires s.room.Some? && sender in s.peers
  {
    exists to :: (to == s.encryption || (s.retiredEncryption.Some? && to == s.retiredEncryption.value.0))
      && blob == Sealed(secret, Context(s.server, s.room.value, epoch, sender, s.me), s.peers[sender].encryptionKey, to)
  }

  /** Of an epoch past the floor, and no older than the one before ours. */
  ghost predicate IsRecent(s: Keys, epoch: Epoch) {
    (s.floor.Some? ==> s.floor.value < epoch) && s.epoch - 1 <= epoch
  }

  /** A sender key is stored exactly if it is of our epoch or, for two seconds, of the one before, its
      sender is trusted, and it was wrapped by them for us here. Then their older secrets have two
      seconds left, unless some are shorter, and nothing cached of this epoch of theirs stays. */
  lemma StoredExactly(s: Keys, sender: UserId, epoch: Epoch, blob: Blob, now: Time, secret: Secret)
    ensures var verdict := Judge(s, sender, epoch, blob, now);
      verdict.Store? && verdict.secret == secret <==>
        && IsRecent(s, epoch) && s.room.Some? && sender in s.peers && epoch <= s.epoch
        && (epoch == s.epoch || now < s.epochSince + 2_000_000_000)
        && IsForUs(s, sender, epoch, blob, secret)
  {
    if IsRecent(s, epoch) && s.room.Some? && sender in s.peers {
      var theirs, context := s.peers[sender].encryptionKey, ContextOf(s, s.room.value, epoch, sender, s.me);
      OpensExactly(s, theirs, context, blob, secret);
    }
  }

  lemma OpensExactly(s: Keys, theirs: PublicKey, context: Context, blob: Blob, secret: Secret)
    ensures OpenEither(s, theirs, context, blob) == Some(secret) <==>
      exists to :: (to == s.encryption || (s.retiredEncryption.Some? && to == s.retiredEncryption.value.0))
        && blob == Sealed(secret, context, theirs, to)
  {
    if blob == Sealed(secret, context, theirs, s.encryption) {
    } else if s.retiredEncryption.Some? && blob == Sealed(secret, context, theirs, s.retiredEncryption.value.0) {
    }
  }

  lemma StoredIs(s: Keys, sender: UserId, epoch: Epoch, blob: Blob, now: Time, k: SenderAt)
    requires blob.Length() == 80 && Judge(s, sender, epoch, blob, now).Store?
    ensures var (t, error) := SenderKey(s, sender, epoch, blob, now);
      && error == None && t.early == s.early
      && (k in t.received <==> k == (sender, epoch) || k in s.received)
      && (k == (sender, epoch) ==>
            t.received[k].secret == Judge(s, sender, epoch, blob, now).secret
            && t.received[k].retireAt == if epoch == s.epoch then None else Some(s.epochSince + 2_000_000_000))
      && (k in s.received && k != (sender, epoch) && k.0 == sender && k.1 < epoch && s.received[k].retireAt == None ==>
            t.received[k] == Received(s.received[k].secret, Some(now + 2_000_000_000)))
      && (k in s.received && k != (sender, epoch) && !(k.0 == sender && k.1 < epoch && s.received[k].retireAt == None) ==>
            t.received[k] == s.received[k])
  {
    StoredExactly(s, sender, epoch, blob, now, Judge(s, sender, epoch, blob, now).secret);
  }

  /** One is held, if there is room for it, exactly while it is recent and we aren't in a room, don't
      trust its sender or haven't come to its epoch yet. */
  lemma HeldExactly(s: Keys, sender: UserId, epoch: Epoch, blob: Blob, now: Time)
    ensures Judge(s, sender, epoch, blob, now).Hold? <==>
      IsRecent(s, epoch) && (s.room.None? || sender !in s.peers || s.epoch < epoch)
    ensures var (t, error) := SenderKey(s, sender, epoch, blob, now);
      blob.Length() == 80 && Judge(s, sender, epoch, blob, now).Hold? ==>
        && error == None && t == s.(early := t.early)
        && t.early == if |s.early| < 60 || (sender, epoch) in s.early then s.early[(sender, epoch) := (now, blob)] else s.early
  {
    hide StoreKey, OpenEither;
  }

  /** Anything else is refused, and so is one of another length. What is refused changes nothing. */
  lemma RefusedExactly(s: Keys, sender: UserId, epoch: Epoch, blob: Blob, now: Time)
    ensures Judge(s, sender, epoch, blob, now) == Refuse(Stale) <==>
      !IsRecent(s, epoch) || (s.room.Some? && sender in s.peers && epoch < s.epoch && s.epochSince + 2_000_000_000 <= now)
    ensures var (t, error) := SenderKey(s, sender, epoch, blob, now);
      && (error == Some(WrongLength) <==> blob.Length() != 80)
      && (error.Some? <==> blob.Length() != 80 || Judge(s, sender, epoch, blob, now).Refuse?)
      && (error.Some? ==> t == s)
  {
    hide StoreKey, OpenEither;
    NeverOfWrongLength(s, sender, epoch, blob, now);
  }

  lemma NeverOfWrongLength(s: Keys, sender: UserId, epoch: Epoch, blob: Blob, now: Time)
    ensures Judge(s, sender, epoch, blob, now) != Refuse(WrongLength)
  {
  }

  // ---- Renewed encryption keys -----------------------------------------------------------

  /** Once we have a new encryption key, wraps to the last one open for ten seconds more. */
  lemma {:induction false} RetiredKeyOpens(s: Keys, steps: seq<Step>, retired: PublicKey, until: Time)
    requires s.retiredEncryption == Some((retired, until))
    requires forall i :: 0 <= i < |steps| ==> !steps[i].op.Renewed? && !steps[i].op.Reconnected?
    ensures Run(s, steps).encryption == s.encryption
    ensures Run(s, steps).retiredEncryption ==
      if exists i :: 0 <= i < |steps| && steps[i].op.Ticked? && until <= steps[i].now then None else Some((retired, until))
    decreases |steps|
  {
    hide Apply;
    if steps != [] {
      var t := Apply(s, steps[0]).0;
      StepKeepsEncryption(s, steps[0]);
      if steps[0].op.Ticked? && until <= steps[0].now {
        NoneStaysNone(t, steps[1..]);
      } else {
        RetiredKeyOpens(t, steps[1..], retired, until);
        if i :| 0 <= i < |steps| && steps[i].op.Ticked? && until <= steps[i].now {
          assert steps[i] == steps[1..][i - 1];
        }
      }
    }
  }

  lemma RenewingRetires(s: Keys, encryption: PublicKey, now: Time)
    ensures var t := ReplaceEncryption(s, encryption, now);
      t == s.(encryption := encryption, retiredEncryption := Some((s.encryption, now + 10_000_000_000)))
  {
  }

  lemma {:induction false} NoneStaysNone(s: Keys, steps: seq<Step>)
    requires s.retiredEncryption == None
    requires forall i :: 0 <= i < |steps| ==> !steps[i].op.Renewed? && !steps[i].op.Reconnected?
    ensures Run(s, steps).retiredEncryption == None && Run(s, steps).encryption == s.encryption
    decreases |steps|
  {
    hide Apply;
    if steps != [] {
      StepKeepsEncryption(s, steps[0]);
      NoneStaysNone(Apply(s, steps[0]).0, steps[1..]);
    }
  }

  ghost predicate SameEncryption(s: Keys, t: Keys) {
    t.encryption == s.encryption && t.retiredEncryption == s.retiredEncryption
  }

  lemma StateKeepsEncryption(s: Keys, room: RoomId, epoch: Epoch, peers: seq<Peer>, now: Time, unix: nat)
    ensures SameEncryption(s, PeersChanged(s, room, epoch, peers, now, unix).0)
  {
    hide PeersChanged;
    if Accepts(s, room, epoch) {
      StateStays(s, room, epoch, peers, now, unix);
    } else {
      NotAccepted(s, room, epoch, peers, now, unix);
    }
  }

  lemma PlacementKeepsEncryption(s: Keys, to: Option<RoomId>, epoch: Epoch, tracks: Option<Tracks>, peers: seq<Peer>, now: Time, unix: nat)
    ensures SameEncryption(s, ApplyPlacement(s, to, epoch, tracks, peers, now, unix).0)
  {
    hide PeersChanged;
    var placed := Place(s, to, tracks);
    if to.Some? {
      var entered := PeersChanged(placed, to.value, epoch, peers, now, unix).0;
      StateKeepsEncryption(placed, to.value, epoch, peers, now, unix);
      if entered.stashed.Some? {
        var stash := entered.stashed.value;
        StateKeepsEncryption(entered.(stashed := None), to.value, stash.epoch, stash.peers, now, unix);
      }
    }
  }

  lemma KeyKeepsEncryption(s: Keys, sender: UserId, epoch: Epoch, blob: Blob, now: Time)
    ensures SameEncryption(s, SenderKey(s, sender, epoch, blob, now).0)
  {
    hide SenderKey;
    KeyReceives(s, sender, epoch, blob, now);
  }

  lemma StepKeepsEncryption(s: Keys, step: Step)
    requires !step.op.Renewed? && !step.op.Reconnected?
    ensures var t := Apply(s, step).0;
      && t.encryption == s.encryption
      && t.retiredEncryption == if step.op.Ticked? && s.retiredEncryption.Some? && s.retiredEncryption.value.1 <= step.now
                                then None else s.retiredEncryption
  {
    hide PeersChanged, ApplyPlacement, SenderKey, Kept, CachedFor, FreshEarly, BelowFloor, CacheHit;
    match step.op
    case Shown(user, at) =>
      var t := SetPresence(s, user, at).0;
      if t.room.Some? {
        StateKeepsEncryption(t, t.room.value, t.epoch, t.roomPeers, step.now, step.unix);
      }
    case RoomState(room, epoch, peers) => StateKeepsEncryption(s, room, epoch, peers, step.now, step.unix);
    case Placement(to, epoch, tracks, peers) => PlacementKeepsEncryption(s, to, epoch, tracks, peers, step.now, step.unix);
    case KeyFrom(sender, epoch, blob) => KeyKeepsEncryption(s, sender, epoch, blob, step.now);
    case _ =>
  }
}
