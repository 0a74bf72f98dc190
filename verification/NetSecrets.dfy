/** Each secret goes out in one request. If the server refuses that, nobody ever holds it. */
module NetSecrets {
  import opened Collections
  import opened KeyModel
  import opened KeyInvariants
  import opened KeyTheorems
  import opened KeyRuns
  import opened NetModel
  import opened NetSafety
  import opened NetArrival
  import opened NetRuns

  // ---- Who holds a secret --------------------------------------------------------------

  ghost predicate IsSealedIn(blob: Blob, secret: Secret) {
    blob.Sealed? && blob.secret == secret
  }

  ghost predicate Holds(k: Keys, secret: Secret) {
    || (exists x :: x in k.received && k.received[x].secret == secret)
    || (exists x :: x in k.early && IsSealedIn(k.early[x].1, secret))
  }

  /** A client holds a secret, or is being sent it. */
  ghost predicate Gets(l: Link, secret: Secret) {
    Holds(l.keys, secret) || exists i :: 0 <= i < |l.inbox| && l.inbox[i].KeyFrom? && IsSealedIn(l.inbox[i].blob, secret)
  }

  /** Nothing that `t` holds is new. */
  ghost predicate HoldsNoMore(s: Keys, t: Keys) {
    forall secret :: Holds(t, secret) ==> Holds(s, secret)
  }

  lemma FromSame(s: Keys, t: Keys)
    requires forall x :: x in t.received ==> x in s.received && t.received[x].secret == s.received[x].secret
    requires forall x :: x in t.early ==> x in s.early && t.early[x] == s.early[x]
    ensures HoldsNoMore(s, t)
  {
    forall secret | Holds(t, secret) ensures Holds(s, secret) {
      if x :| x in t.received && t.received[x].secret == secret {
        assert s.received[x].secret == secret;
      } else {
        var x :| x in t.early && IsSealedIn(t.early[x].1, secret);
        assert IsSealedIn(s.early[x].1, secret);
      }
    }
  }

  lemma JudgeOpens(k: Keys, sender: UserId, epoch: Epoch, blob: Blob, now: Time)
    requires Judge(k, sender, epoch, blob, now).Store?
    ensures IsSealedIn(blob, Judge(k, sender, epoch, blob, now).secret)
  {
  }

  lemma EarlyHoldsNoMore(s: Keys, now: Time)
    ensures HoldsNoMore(s, TakeEarly(s, now))
  {
    hide Judge, CachedWithout, IsOvertaken;
    var t := TakeEarly(s, now);
    var arrived := Arrived(s, s.early.Keys, now);
    forall secret | Holds(t, secret) ensures Holds(s, secret) {
      if x :| x in t.received && t.received[x].secret == secret {
        if x in arrived {
          JudgeOpens(s, x.0, x.1, s.early[x].1, now);
          assert IsSealedIn(s.early[x].1, secret);
        } else {
          assert s.received[x].secret == secret;
        }
      } else {
        var x :| x in t.early && IsSealedIn(t.early[x].1, secret);
        assert IsSealedIn(s.early[x].1, secret);
      }
    }
  }

  lemma StateHoldsNoMore(s: Keys, room: RoomId, epoch: Epoch, peers: seq<Peer>, now: Time, unix: nat)
    ensures HoldsNoMore(s, PeersChanged(s, room, epoch, peers, now, unix).0)
  {
    hide HoldsNoMore, TrustState, Rekey, TakeEarly;
    var t := PeersChanged(s, room, epoch, peers, now, unix).0;
    if Accepts(s, room, epoch) {
      var trusting := TrustState(s, room, peers, now, unix);
      var rekeyed := Rekey(trusting, room, epoch, now).0;
      TrustHoldsNoMore(s, room, peers, now, unix);
      RekeyHoldsNoMore(trusting, room, epoch, now);
      EarlyHoldsNoMore(rekeyed, now);
      FromSame(TakeEarly(rekeyed, now), t);
      NoMoreTwice(s, trusting, rekeyed);
      NoMoreTwice(s, rekeyed, TakeEarly(rekeyed, now));
      NoMoreTwice(s, TakeEarly(rekeyed, now), t);
    } else {
      RefusedStates(s, room, epoch, peers, now, unix);
      FromSame(s, t);
    }
  }

  lemma NoMoreTwice(s: Keys, t: Keys, v: Keys)
    requires HoldsNoMore(s, t) && HoldsNoMore(t, v)
    ensures HoldsNoMore(s, v)
  {
    hide Holds;
  }

  lemma TrustHoldsNoMore(s: Keys, room: RoomId, peers: seq<Peer>, now: Time, unix: nat)
    ensures HoldsNoMore(s, TrustState(s, room, peers, now, unix))
  {
    hide TrustedNow, StillUnwrappable, Owners, Departed;
    FromSame(s, TrustState(s, room, peers, now, unix));
  }

  lemma RekeyHoldsNoMore(s: Keys, room: RoomId, epoch: Epoch, now: Time)
    ensures HoldsNoMore(s, Rekey(s, room, epoch, now).0)
  {
    hide StartEpoch, WrapForNewPeers, NeedsNewSecret;
    var ready := if NeedsNewSecret(s, epoch) then StartEpoch(s, epoch, now) else s;
    WrapTouches(ready, room);
    StartRetires(s, epoch, now);
    FromSame(s, Rekey(s, room, epoch, now).0);
  }

  lemma StartRetires(s: Keys, epoch: Epoch, now: Time)
    ensures var t := StartEpoch(s, epoch, now);
      t.early == s.early && forall x :: x in t.received ==> x in s.received && t.received[x].secret == s.received[x].secret
  {
    hide Raise, DeriveAll, MyTrackIds;
  }

  /** A step holds no secret that wasn't held before, but the one a sender key brings. */
  lemma StepHoldsNoMore(k: Keys, step: Step, secret: Secret)
    requires step.op.RoomState? || step.op.Shown? || step.op.Placement? || step.op.KeyFrom?
    requires Holds(Apply(k, step).0, secret)
    ensures Holds(k, secret) || (step.op.KeyFrom? && IsSealedIn(step.op.blob, secret))
  {
    hide Holds, PeersChanged, SenderKey, Place, SetPresence;
    match step.op
    case RoomState(room, epoch, peers) => StateHoldsNoMore(k, room, epoch, peers, step.now, step.unix);
    case Shown(user, where) =>
      var t := SetPresence(k, user, where).0;
      PresenceTouches(k, user, where);
      FromSame(k, t);
      if t.room.Some? {
        StateHoldsNoMore(t, t.room.value, t.epoch, t.roomPeers, step.now, step.unix);
      }
    case Placement(to, epoch, tracks, peers) => PlacementHoldsNoMore(k, to, epoch, tracks, peers, step.now, step.unix);
    case KeyFrom(sender, epoch, blob) => KeyHoldsNoMore(k, sender, epoch, blob, step.now, secret);
  }

  lemma PlacementHoldsNoMore(k: Keys, to: Option<RoomId>, epoch: Epoch, tracks: Option<Tracks>, peers: seq<Peer>, now: Time, unix: nat)
    ensures HoldsNoMore(k, ApplyPlacement(k, to, epoch, tracks, peers, now, unix).0)
  {
    hide HoldsNoMore, PeersChanged, Place;
    FromSame(k, k);
    var placed := Place(k, to, tracks);
    PlaceHoldsNoMore(k, to, tracks);
    FromSame(placed, placed.(stashed := None));
    NoMoreTwice(k, placed, placed.(stashed := None));
    if to.Some? {
      var entered := PeersChanged(placed, to.value, epoch, peers, now, unix).0;
      var caught := entered.(stashed := None);
      StateHoldsNoMore(placed, to.value, epoch, peers, now, unix);
      FromSame(entered, caught);
      NoMoreTwice(k, placed, entered);
      NoMoreTwice(k, entered, caught);
      if entered.stashed.Some? {
        var (e, listed) := (entered.stashed.value.epoch, entered.stashed.value.peers);
        StateHoldsNoMore(caught, to.value, e, listed, now, unix);
        NoMoreTwice(k, caught, PeersChanged(caught, to.value, e, listed, now, unix).0);
      }
    }
  }

  lemma PlaceHoldsNoMore(k: Keys, to: Option<RoomId>, tracks: Option<Tracks>)
    ensures HoldsNoMore(k, Place(k, to, tracks))
  {
    FromSame(k, Place(k, to, tracks));
  }

  lemma KeyHoldsNoMore(k: Keys, sender: UserId, epoch: Epoch, blob: Blob, now: Time, secret: Secret)
    requires Holds(SenderKey(k, sender, epoch, blob, now).0, secret)
    ensures Holds(k, secret) || IsSealedIn(blob, secret)
  {
    hide Judge, StoreKey, Holds;
    var x, v := (sender, epoch), Judge(k, sender, epoch, blob, now);
    if v.Store? {
      JudgeOpens(k, sender, epoch, blob, now);
      StoreHolds(k, x, Received(v.secret, v.retireAt), now, secret);
    } else if v.Hold? {
      HeldHolds(k, x, (now, blob), secret);
    }
  }

  lemma StoreHolds(k: Keys, x: SenderAt, r: Received, now: Time, secret: Secret)
    ensures Holds(StoreKey(k, x, r, now), secret) ==> Holds(k, secret) || secret == r.secret
  {
    hide Forget;
    var t := StoreKey(k, x, r, now);
    forall y | y in t.received && y != x ensures y in k.received && t.received[y].secret == k.received[y].secret {
    }
  }

  lemma HeldHolds(k: Keys, x: SenderAt, held: (Time, Blob), secret: Secret)
    ensures Holds(k.(early := k.early[x := held]), secret) ==> Holds(k, secret) || IsSealedIn(held.1, secret)
  {
    var early := k.early[x := held];
    forall y | y in early && y != x ensures y in k.early && early[y] == k.early[y] {
    }
  }

  // ---- What is kept of one sender ------------------------------------------------------

  /** Requests still to be handled seal secrets numbered from `low` on, each its own. Whatever of
      `a`'s anyone holds or is sent is older, and so are the refused ones, which nobody gets. */
  ghost predicate SentUpTo(n: Net, a: UserId, low: nat)
    requires a in n.links
  {
    var l := n.links[a];
    && l.keys.me == a && SealsInOrder(l.outbox, a, low, l.keys.serial)
    && (forall secret :: secret in l.refused ==> secret.owner == a && secret.serial < low)
    && (forall b, secret :: b in n.links && Gets(n.links[b], secret) && secret.owner == a ==>
          secret.serial < low && secret !in l.refused)
  }

  ghost predicate AllSent(n: Net) {
    forall a :: a in n.links ==> exists low: nat :: SentUpTo(n, a, low)
  }

  /** Nobody gets more than before, and the sender's side is as it was. */
  lemma StillSent(n: Net, m: Net, a: UserId, low: nat)
    requires a in n.links && a in m.links && SentUpTo(n, a, low)
    requires m.links[a].keys.me == a && m.links[a].outbox == n.links[a].outbox && m.links[a].refused == n.links[a].refused
    requires m.links[a].keys.serial == n.links[a].keys.serial
    requires forall b, secret :: b in m.links && Gets(m.links[b], secret) && secret.owner == a ==> b in n.links && Gets(n.links[b], secret)
    ensures SentUpTo(m, a, low)
  {
    hide Gets, SealsInOrder;
  }

  lemma AllStillSent(n: Net, m: Net)
    requires AllSent(n) && m.links.Keys == n.links.Keys
    requires forall a :: a in n.links ==>
      && m.links[a].keys.me == n.links[a].keys.me && m.links[a].keys.serial == n.links[a].keys.serial
      && m.links[a].outbox == n.links[a].outbox && m.links[a].refused == n.links[a].refused
    requires forall b, secret :: b in m.links && Gets(m.links[b], secret) ==> Gets(n.links[b], secret)
    ensures AllSent(m)
  {
    hide Gets, SealsInOrder;
    forall a | a in m.links ensures exists low: nat :: SentUpTo(m, a, low) {
      var low: nat :| SentUpTo(n, a, low);
      StillSent(n, m, a, low);
    }
  }

  // ---- A client takes something in -----------------------------------------------------

  lemma TakenSent(n: Net, u: UserId, m: Link, requests: seq<Publish>)
    requires AllSent(n) && u in n.links
    requires var l := n.links[u];
      && m.outbox == l.outbox + requests && m.refused == l.refused && m.keys.me == l.keys.me
      && SealsInOrder(requests, l.keys.me, l.keys.serial, m.keys.serial)
      && forall secret :: Gets(m, secret) ==> Gets(l, secret)
    ensures AllSent(n.(links := n.links[u := m]))
  {
    hide Gets, SealsInOrder;
    var l, after := n.links[u], n.(links := n.links[u := m]);
    forall a | a in after.links ensures exists low: nat :: SentUpTo(after, a, low) {
      var low: nat :| SentUpTo(n, a, low);
      if a == u {
        SealsJoin(l.outbox, requests, a, low, l.keys.serial, m.keys.serial);
        assert SentUpTo(after, a, low);
      } else {
        StillSent(n, after, a, low);
      }
    }
  }

  /** An event or an answer brings no secret but what was on its way. */
  lemma TakesSent(w: World, n: Net, u: UserId, op: Op, m: Link)
    requires AllSent(n) && u in n.links && (op.RoomState? || op.Shown? || op.Placement? || op.KeyFrom?)
    requires var l := n.links[u];
      && m.keys == Take(w, l, op).keys && m.outbox == Take(w, l, op).outbox && m.refused == l.refused
      && (m.inbox == l.inbox || (l.inbox != [] && m.inbox == l.inbox[1..]))
      && (op.KeyFrom? ==> op in l.inbox)
    ensures AllSent(n.(links := n.links[u := m]))
  {
    hide SealsInOrder, Apply, Holds;
    var l := n.links[u];
    var (t, requests) := Apply(l.keys, Step(op, w.now, w.unix));
    StepSeals(l.keys, Step(op, w.now, w.unix));
    forall secret | Gets(m, secret) ensures Gets(l, secret) {
      if Holds(m.keys, secret) {
        StepHoldsNoMore(l.keys, Step(op, w.now, w.unix), secret);
      } else {
        var i :| 0 <= i < |m.inbox| && m.inbox[i].KeyFrom? && IsSealedIn(m.inbox[i].blob, secret);
        assert m.inbox[i] in l.inbox;
      }
    }
    TakenSent(n, u, m, requests);
  }

  // ---- A request leaves ----------------------------------------------------------------

  /** The front request seals one secret, which nobody has got so far. */
  lemma FrontSeals(n: Net, u: UserId, low: nat) returns (serial: nat)
    requires u in n.links && SentUpTo(n, u, low) && n.links[u].outbox != []
    ensures low <= serial && SecretsOf(n.links[u].outbox[0]) == {Secret(u, serial)}
    ensures SealsInOrder(n.links[u].outbox[1..], u, serial + 1, n.links[u].keys.serial)
  {
    hide Gets;
    var p := n.links[u].outbox[0];
    serial :| low <= serial < n.links[u].keys.serial && Seals(p, u, serial)
      && SealsInOrder(n.links[u].outbox[1..], u, serial + 1, n.links[u].keys.serial);
    var v: int := Pick(p.wrapped.Keys);
    assert p.wrapped[v].secret == Secret(u, serial);
    SameSet(SecretsOf(p), {Secret(u, serial)});
  }

  lemma RefuseSent(n: Net, u: UserId)
    requires AllSent(n) && u in n.links && n.links[u].outbox != []
    ensures AllSent(n.(links := n.links[u := RefuseNext(n.links[u])]))
  {
    hide Holds, SealsInOrder, SecretsOf;
    var m := n.(links := n.links[u := RefuseNext(n.links[u])]);
    forall a | a in m.links ensures exists low: nat :: SentUpTo(m, a, low) {
      var low: nat :| SentUpTo(n, a, low);
      if a == u {
        var serial := FrontSeals(n, u, low);
        assert SentUpTo(m, a, serial + 1);
      } else {
        StillSent(n, m, a, low);
      }
    }
  }

  /** Handed out, the secret is got by those it was wrapped for. */
  lemma HandedGets(n: Net, u: UserId, b: UserId, secret: Secret)
    requires u in n.links && n.links[u].outbox != [] && b in n.links && Gets(AcceptNext(n, u).links[b], secret)
    ensures Gets(n.links[b], secret) || secret in SecretsOf(n.links[u].outbox[0])
  {
    hide Holds;
    var p, l, m := n.links[u].outbox[0], n.links[b], AcceptNext(n, u).links[b];
    if !Holds(m.keys, secret) {
      var i :| 0 <= i < |m.inbox| && m.inbox[i].KeyFrom? && IsSealedIn(m.inbox[i].blob, secret);
      if i < |l.inbox| {
        assert m.inbox[i] == l.inbox[i];
      } else {
        assert m.inbox[i] == KeyFrom(u, p.epoch, p.wrapped[b]);
      }
    }
  }

  /** What handing the front request out does to what anyone gets. */
  ghost predicate Handed(n: Net, m: Net, u: UserId, secret: Secret)
    requires u in n.links && n.links[u].outbox != []
  {
    && m.links.Keys == n.links.Keys
    && (forall a :: a in n.links ==>
          && m.links[a].keys == n.links[a].keys && m.links[a].refused == n.links[a].refused
          && m.links[a].outbox == if a == u then n.links[u].outbox[1..] else n.links[a].outbox)
    && (forall b, s :: b in n.links && Gets(m.links[b], s) ==> s == secret || Gets(n.links[b], s))
  }

  lemma AcceptHands(n: Net, u: UserId, secret: Secret)
    requires u in n.links && n.links[u].outbox != [] && SecretsOf(n.links[u].outbox[0]) == {secret}
    ensures Handed(n, AcceptNext(n, u), u, secret)
  {
    hide Gets, SecretsOf;
    var m := AcceptNext(n, u);
    forall b, s | b in n.links && Gets(m.links[b], s) ensures s == secret || Gets(n.links[b], s) {
      HandedGets(n, u, b, s);
    }
  }

  lemma AcceptSent(n: Net, u: UserId)
    requires AllSent(n) && u in n.links && n.links[u].outbox != []
    ensures AllSent(AcceptNext(n, u))
  {
    hide Gets, SealsInOrder, SecretsOf, AcceptNext;
    var m := AcceptNext(n, u);
    var low: nat :| SentUpTo(n, u, low);
    var serial := FrontSeals(n, u, low);
    AcceptHands(n, u, Secret(u, serial));
    assert SentUpTo(m, u, serial + 1);
    forall a | a in m.links && a != u ensures exists low: nat :: SentUpTo(m, a, low) {
      var low: nat :| SentUpTo(n, a, low);
      StillSent(n, m, a, low);
    }
  }

  // ---- Every step, every run -----------------------------------------------------------

  lemma ToldGets(l: Link, op: Op, secret: Secret)
    requires !op.KeyFrom? && Gets(l.(inbox := l.inbox + [op]), secret)
    ensures Gets(l, secret)
  {
    hide Holds;
    if !Holds(l.keys, secret) {
      var m := l.inbox + [op];
      var i :| 0 <= i < |m| && m[i].KeyFrom? && IsSealedIn(m[i].blob, secret);
      assert l.inbox[i] == m[i];
    }
  }

  lemma ToldSent(n: Net, whom: set<UserId>, op: Op)
    requires AllSent(n) && !op.KeyFrom?
    ensures AllSent(n.(links := Tell(n.links, whom, op)))
  {
    hide Gets, SentUpTo;
    var m := n.(links := Tell(n.links, whom, op));
    forall b, secret | b in m.links && Gets(m.links[b], secret) ensures Gets(n.links[b], secret) {
      if b in whom {
        ToldGets(n.links[b], op, secret);
      }
    }
    SameSet(m.links.Keys, n.links.Keys);
    AllStillSent(n, m);
  }

  /** Only who is in, how far, and the links matter not. */
  lemma SameLinksSent(n: Net, m: Net)
    requires AllSent(n) && m.links == n.links
    ensures AllSent(m)
  {
    hide SealsInOrder, Gets;
    AllStillSent(n, m);
  }

  lemma AnsweredSent(n: Net, u: UserId, l: Link)
    requires AllSent(n) && u in n.links
    requires l.keys == n.links[u].keys && l.inbox == n.links[u].inbox && l.outbox == n.links[u].outbox && l.refused == n.links[u].refused
    ensures AllSent(n.(links := n.links[u := l]))
  {
    hide SealsInOrder, Holds;
    var m := n.(links := n.links[u := l]);
    SameSet(m.links.Keys, n.links.Keys);
    AllStillSent(n, m);
  }

  lemma OutSent(w: World, n: Net, u: UserId, peers: seq<Peer>)
    requires AllSent(n)
    ensures AllSent(TakeOut(w, n, u, peers))
  {
    hide AllSent, Tell;
    var state := RoomState(w.room, n.epoch + 1, peers);
    ToldSent(n, n.members.Keys - {u}, state);
    ToldSent(n.(links := Tell(n.links, n.members.Keys - {u}, state)), n.links.Keys, Shown(u, None));
    SameLinksSent(n.(links := Tell(Tell(n.links, n.members.Keys - {u}, state), n.links.Keys, Shown(u, None))), TakeOut(w, n, u, peers));
  }

  lemma EnterSent(w: World, n: Net, u: UserId, peers: seq<Peer>)
    requires AllSent(n) && u in n.links
    ensures AllSent(EnterRoomOf(w, n, u, peers))
  {
    hide AllSent, Tell;
    var state := RoomState(w.room, n.epoch + 1, peers);
    var told := n.(links := Tell(Tell(n.links, n.members.Keys, state), n.links.Keys, Shown(u, Some(w.room))));
    ToldTwice(n.links, n.members.Keys, state, n.links.Keys, Shown(u, Some(w.room)));
    ToldSent(n, n.members.Keys, state);
    ToldSent(n.(links := Tell(n.links, n.members.Keys, state)), n.links.Keys, Shown(u, Some(w.room)));
    var m := EnterRoomOf(w, n, u, peers);
    AnsweredSent(told, u, m.links[u]);
    SameLinksSent(told.(links := told.links[u := m.links[u]]), m);
  }

  lemma RestartSent(w: World, n: Net, u: UserId)
    requires AllSent(n) && u in n.links
    ensures AllSent(n.(links := n.links[u := Restart(w, n.links[u].keys, n.members)]))
  {
    hide SealsInOrder;
    var l := Restart(w, n.links[u].keys, n.members);
    var m := n.(links := n.links[u := l]);
    assert forall secret :: !Gets(l, secret);
    hide Gets;
    forall a | a in m.links ensures exists low: nat :: SentUpTo(m, a, low) {
      var low: nat :| SentUpTo(n, a, low);
      if a == u {
        NothingSealed(n.links[u].outbox, u, low, l.keys.serial);
        assert SentUpTo(m, a, l.keys.serial);
      } else {
        StillSent(n, m, a, low);
      }
    }
  }

  lemma NothingSealed(requests: seq<Publish>, me: UserId, low: nat, high: nat)
    requires SealsInOrder(requests, me, low, high)
    ensures low <= high && SealsInOrder([], me, high, high)
  {
  }

  lemma NextSent(w: World, n: Net, move: Move)
    requires NetOk(w, n) && AllSent(n) && Enabled(w, n, move)
    ensures AllSent(Next(w, n, move))
  {
    hide AllSent, NetOk, Describes, TakeOut, EnterRoomOf, AcceptNext, Take, Tell, Restart;
    match move
    case Enter(u, peers) => EnterSent(w, n, u, peers);
    case Leave(u, peers) =>
      OutSent(w, n, u, peers);
      OutKeeps(w, n, u, peers);
      var out := TakeOut(w, n, u, peers);
      AnsweredSent(out, u, out.links[u].(answer := Some(TO_LOBBY)));
    case Ask(u, peers) => AnsweredSent(n, u, n.links[u].(answer := Some(AnswerAgain(w, n, u, peers))));
    case Kick(u, peers, told) =>
      OutSent(w, n, u, peers);
      OutKeeps(w, n, u, peers);
      var out := TakeOut(w, n, u, peers);
      AnsweredSent(out, u, out.links[u].(kicks := out.links[u].kicks + 1));
    case PutOut(u) => PutOutSent(w, n, u);
    case Refuse(u) => RefuseSent(n, u);
    case Refresh(peers) => ToldSent(n, n.members.Keys, RoomState(w.room, n.epoch, peers));
    case Announce(u) => ToldSent(n, n.links.Keys, Shown(u, Some(w.room)));
    case Reconnect(u, peers) =>
      if u in n.members {
        OutSent(w, n, u, peers);
        OutKeeps(w, n, u, peers);
      }
      RestartSent(w, if u in n.members then TakeOut(w, n, u, peers) else n, u);
    case Accept(u) => AcceptSent(n, u);
    case Deliver(u) => DeliverSent(w, n, u);
    case Settle(u) => SettleSent(w, n, u);
  }

  lemma DeliverSent(w: World, n: Net, u: UserId)
    requires NetOk(w, n) && AllSent(n) && u in n.links && n.links[u].inbox != []
    ensures AllSent(n.(links := n.links[u := DeliverNext(w, n.links[u])]))
  {
    hide NetOk, AllSent, Apply;
    EventIs(w, n, u);
    TakesSent(w, n, u, n.links[u].inbox[0], DeliverNext(w, n.links[u]));
  }

  lemma SettleSent(w: World, n: Net, u: UserId)
    requires NetOk(w, n) && AllSent(n) && u in n.links && n.links[u].answer.Some?
    ensures AllSent(n.(links := n.links[u := SettleAnswer(w, n.links[u])]))
  {
    hide NetOk, AllSent, Apply;
    AnswerIs(w, n, u);
    TakesSent(w, n, u, n.links[u].answer.value, SettleAnswer(w, n.links[u]));
  }

  lemma OutKeeps(w: World, n: Net, u: UserId, peers: seq<Peer>)
    requires u in n.links
    ensures var out := TakeOut(w, n, u, peers); u in out.links && out.links[u] == n.links[u].(inbox := out.links[u].inbox)
  {
    ToldTwice(n.links, n.members.Keys - {u}, RoomState(w.room, n.epoch + 1, peers), n.links.Keys, Shown(u, None));
  }

  lemma PutOutSent(w: World, n: Net, u: UserId)
    requires AllSent(n) && u in n.links && n.links[u].kicks > 0
    ensures AllSent(n.(links := n.links[u := ActOnKick(w, n.links[u])]))
  {
    hide AllSent, Apply;
    var l := n.links[u];
    if l.keys.room == Some(w.room) {
      TakesSent(w, n, u, TO_LOBBY, ActOnKick(w, l));
    } else {
      AnsweredSent(n, u, ActOnKick(w, l));
    }
  }

  lemma EventIs(w: World, n: Net, u: UserId)
    requires NetOk(w, n) && u in n.links && n.links[u].inbox != []
    ensures var op := n.links[u].inbox[0]; op.RoomState? || op.Shown? || op.KeyFrom?
  {
    hide Conveyed, KeysOk, ListOk;
    assert LinkOk(w, n.epoch, n.members, u, n.links[u]);
    assert MessageOk(w, n.epoch, n.members, u, n.links[u].inbox[0]);
  }

  lemma AnswerIs(w: World, n: Net, u: UserId)
    requires NetOk(w, n) && u in n.links && n.links[u].answer.Some?
    ensures n.links[u].answer.value.Placement?
  {
    hide Conveyed, KeysOk, ListOk;
  }

  lemma {:induction false} RunsSend(w: World, n: Net, moves: seq<Move>)
    requires NetOk(w, n) && AllSent(n) && CanRun(w, n, moves)
    ensures AllSent(RunNet(w, n, moves))
    decreases |moves|
  {
    hide NetOk, AllSent, Enabled, Next;
    if moves != [] {
      NextOk(w, n, moves[0]);
      NextSent(w, n, moves[0]);
      RunsSend(w, Next(w, n, moves[0]), moves[1..]);
    }
  }

  lemma StartSends(w: World, n: Net)
    requires Starts(w, n)
    ensures AllSent(n)
  {
    hide Honest;
    forall u | u in n.links ensures SentUpTo(n, u, n.links[u].keys.serial) {
      assert StartsAs(w, n, u);
      forall b, secret | b in n.links ensures !Gets(n.links[b], secret) {
        assert StartsAs(w, n, b);
      }
    }
  }

  /** So a secret whose request was refused is stored by nobody. */
  lemma RefusedIsUnknown(n: Net, a: UserId, b: UserId, secret: Secret, x: SenderAt)
    requires AllSent(n) && a in n.links && b in n.links && secret in n.links[a].refused
    requires x in n.links[b].keys.received
    ensures n.links[b].keys.received[x].secret != secret
  {
    hide SealsInOrder;
    var low: nat :| SentUpTo(n, a, low);
    assert Holds(n.links[b].keys, n.links[b].keys.received[x].secret);
  }

  /** That lasts until the sender makes its next secret, which nobody was refused. */
  lemma NextSecretIsUnrefused(n: Net, a: UserId)
    requires AllSent(n) && a in n.links
    ensures Secret(a, n.links[a].keys.serial) !in n.links[a].refused
    ensures forall b :: b in n.links ==> !Gets(n.links[b], Secret(a, n.links[a].keys.serial))
  {
    hide Gets;
    var low: nat :| SentUpTo(n, a, low);
  }
}
