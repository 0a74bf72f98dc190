/**
 Whole runs of one user's keys: room states, placements, lobby trips, presences, sender keys,
 reads, ticks and reconnects, which start a new key manager that shares the floors.
 */
module KeyRuns {
  import opened Collections
  import opened KeyModel
  import opened KeyInvariants
  import opened KeyTheorems

  datatype Op =
    | Shown(user: UserId, at: Option<RoomId>)
    | RoomState(room: RoomId, epoch: Epoch, peers: seq<Peer>)
    | Placement(to: Option<RoomId>, epoch: Epoch, tracks: Option<Tracks>, peers: seq<Peer>)
    | KeyFrom(sender: UserId, epoch: Epoch, blob: Blob)
    | Read(id: MediaId, epoch: Epoch)
    | Ticked
    | Renewed(encryption: PublicKey)
    | Reconnected(encryption: PublicKey)

  /** A step, and when it happens by our clock and by the wall clock. */
  datatype Step = Step(op: Op, now: Time, unix: nat)

  function Apply(s: Keys, step: Step): (Keys, seq<Publish>) {
    var now := step.now;
    match step.op
    case Shown(user, at) =>
      var (t, changed) := SetPresence(s, user, at);
      if changed then (ReapplyPeers(t, now, step.unix).0, Requests(ReapplyPeers(t, now, step.unix).1)) else (t, [])
    case RoomState(room, epoch, peers) =>
      (PeersChanged(s, room, epoch, peers, now, step.unix).0, Requests(PeersChanged(s, room, epoch, peers, now, step.unix).1))
    case Placement(to, epoch, tracks, peers) => ApplyPlacement(s, to, epoch, tracks, peers, now, step.unix)
    case KeyFrom(sender, epoch, blob) => (SenderKey(s, sender, epoch, blob, now).0, [])
    case Read(id, epoch) => (RecvKey(s, id, epoch).0, [])
    case Ticked => (Tick(s, now), [])
    case Renewed(encryption) => (ReplaceEncryption(s, encryption, now), [])
    case Reconnected(encryption) => (New(s.me, s.server, s.weak, encryption, s.floors, now, s.serial), [])
  }

  function Run(s: Keys, steps: seq<Step>): Keys
    decreases |steps|
  {
    if steps == [] then s else Run(Apply(s, steps[0]).0, steps[1..])
  }

  function Published(s: Keys, steps: seq<Step>): seq<Publish>
    decreases |steps|
  {
    if steps == [] then [] else Apply(s, steps[0]).1 + Published(Apply(s, steps[0]).0, steps[1..])
  }

  ghost predicate TimeFlows(steps: seq<Step>, clock: Time)
    decreases |steps|
  {
    steps != [] ==> clock <= steps[0].now && TimeFlows(steps[1..], steps[0].now)
  }

  function ClockAfter(steps: seq<Step>, clock: Time): Time {
    if steps == [] then clock else steps[|steps| - 1].now
  }

  lemma ApplyKeeps(s: Keys, step: Step, clock: Time)
    requires Inv(s, clock) && clock <= step.now
    ensures Inv(Apply(s, step).0, step.now)
  {
    hide Core;
    LaterClock(s, clock, step.now);
    match step.op
    case Shown(user, at) =>
      PresenceKeeps(s, user, at, step.now);
      ReapplyKeeps(SetPresence(s, user, at).0, step.now, step.now, step.unix);
    case RoomState(room, epoch, peers) => PeersChangedKeeps(s, room, epoch, peers, clock, step.now, step.unix);
    case Placement(to, epoch, tracks, peers) => PlacementKeeps(s, to, epoch, tracks, peers, clock, step.now, step.unix);
    case KeyFrom(sender, epoch, blob) => SenderKeyKeeps(s, sender, epoch, blob, clock, step.now);
    case Read(id, epoch) => RecvKeyKeeps(s, id, epoch, step.now);
    case Ticked => TickKeeps(s, clock, step.now);
    case Renewed(encryption) => RenewKeeps(s, encryption, step.now, step.now);
    case Reconnected(encryption) => NewKeeps(s.me, s.server, s.weak, encryption, s.floors, step.now, s.serial);
  }

  lemma {:induction false} RunsKeep(s: Keys, steps: seq<Step>, clock: Time)
    requires Inv(s, clock) && TimeFlows(steps, clock)
    ensures Inv(Run(s, steps), ClockAfter(steps, clock))
    decreases |steps|, 1
  {
    hide Core;
    if steps != [] {
      ApplyKeeps(s, steps[0], clock);
      RestKeeps(s, Apply(s, steps[0]).0, steps, steps[0].now);
    }
  }

  lemma RestKeeps(s: Keys, t: Keys, steps: seq<Step>, clock: Time)
    requires steps != [] && t == Apply(s, steps[0]).0 && clock == steps[0].now
    requires Inv(t, clock) && TimeFlows(steps[1..], clock)
    ensures Inv(Run(s, steps), ClockAfter(steps, clock))
    decreases |steps|, 0
  {
    hide Inv, TimeFlows, Apply;
    RunsKeep(t, steps[1..], clock);
    assert Run(s, steps) == Run(t, steps[1..]);
  }

  // ---- Each secret is published once ---------------------------------------------------

  /** Every blob of the request seals the secret of ours numbered `serial`. */
  ghost predicate Seals(p: Publish, me: UserId, serial: nat) {
    p.wrapped != map[] && forall u :: u in p.wrapped ==> p.wrapped[u].Sealed? && p.wrapped[u].secret == Secret(me, serial)
  }

  /** Each request seals one secret, made after those of the requests before it. */
  ghost predicate SealsInOrder(requests: seq<Publish>, me: UserId, low: nat, high: nat) {
    low <= high &&
    (requests != [] ==>
      exists serial: nat :: low <= serial < high && Seals(requests[0], me, serial) && SealsInOrder(requests[1..], me, serial + 1, high))
  }

  lemma RekeySeals(s: Keys, room: RoomId, epoch: Epoch, now: Time)
    ensures var (t, request) := Rekey(s, room, epoch, now);
      t.me == s.me && s.serial <= t.serial && (request.Some? ==> t.serial == s.serial + 1 && Seals(request.value, s.me, s.serial))
  {
    RekeyPublishes(s, room, epoch, now);
  }

  lemma EarlyMakesNoSecret(s: Keys, now: Time)
    ensures TakeEarly(s, now).me == s.me && TakeEarly(s, now).serial == s.serial
  {
  }

  lemma StateSeals(s: Keys, room: RoomId, epoch: Epoch, peers: seq<Peer>, now: Time, unix: nat)
    ensures var (t, request) := PeersChanged(s, room, epoch, peers, now, unix);
      t.me == s.me && s.serial <= t.serial && (request.Some? ==> t.serial == s.serial + 1 && Seals(request.value, s.me, s.serial))
  {
    if Accepts(s, room, epoch) {
      var trusting := TrustState(s, room, peers, now, unix);
      RekeySeals(trusting, room, epoch, now);
      EarlyMakesNoSecret(Rekey(trusting, room, epoch, now).0, now);
    }
  }

  lemma OneSealsInOrder(request: Option<Publish>, me: UserId, low: nat, high: nat)
    requires low <= high && (request.Some? ==> high == low + 1 && Seals(request.value, me, low))
    ensures SealsInOrder(Requests(request), me, low, high)
  {
    if request.Some? {
      assert Seals(Requests(request)[0], me, low) && SealsInOrder(Requests(request)[1..], me, low + 1, high);
    }
  }

  lemma {:induction false} SealsJoin(a: seq<Publish>, b: seq<Publish>, me: UserId, low: nat, middle: nat, high: nat)
    requires SealsInOrder(a, me, low, middle) && SealsInOrder(b, me, middle, high)
    ensures SealsInOrder(a + b, me, low, high)
    decreases |a|
  {
    if a == [] {
      assert a + b == b;
      SealsEarlier(b, me, low, middle, high);
    } else {
      var serial: nat :| low <= serial < middle && Seals(a[0], me, serial) && SealsInOrder(a[1..], me, serial + 1, middle);
      SealsJoin(a[1..], b, me, serial + 1, middle, high);
      assert (a + b)[1..] == a[1..] + b;
      assert Seals((a + b)[0], me, serial);
    }
  }

  lemma SealsEarlier(requests: seq<Publish>, me: UserId, lower: nat, low: nat, high: nat)
    requires SealsInOrder(requests, me, low, high) && lower <= low
    ensures SealsInOrder(requests, me, lower, high)
  {
    if requests != [] {
      var serial: nat :| low <= serial < high && Seals(requests[0], me, serial) && SealsInOrder(requests[1..], me, serial + 1, high);
      assert lower <= serial < high;
    }
  }

  lemma PlacementSeals(s: Keys, to: Option<RoomId>, epoch: Epoch, tracks: Option<Tracks>, peers: seq<Peer>,
                       now: Time, unix: nat)
    ensures var (t, requests) := ApplyPlacement(s, to, epoch, tracks, peers, now, unix);
            t.me == s.me && SealsInOrder(requests, s.me, s.serial, t.serial)
  {
    hide PeersChanged, CatchUp, Seals;
    if !(to.Some? && to == s.room && epoch < s.epoch) && to.Some? {
      var placed := Place(s, to, tracks);
      var (entered, first) := PeersChanged(placed, to.value, epoch, peers, now, unix);
      StateSeals(placed, to.value, epoch, peers, now, unix);
      OneSealsInOrder(first, s.me, s.serial, entered.serial);
      CatchUpSeals(entered, to.value, epoch, now, unix);
      var (caughtUp, second) := CatchUp(entered, to.value, epoch, now, unix);
      OneSealsInOrder(second, s.me, entered.serial, caughtUp.serial);
      SealsJoin(Requests(first), Requests(second), s.me, s.serial, entered.serial, caughtUp.serial);
    }
  }

  lemma CatchUpSeals(s: Keys, room: RoomId, epoch: Epoch, now: Time, unix: nat)
    ensures var (t, request) := CatchUp(s, room, epoch, now, unix);
      t.me == s.me && s.serial <= t.serial && (request.Some? ==> t.serial == s.serial + 1 && Seals(request.value, s.me, s.serial))
  {
    var caught := s.(stashed := None);
    if s.stashed.Some? {
      StateSeals(caught, room, s.stashed.value.epoch, s.stashed.value.peers, now, unix);
    }
  }

  lemma SenderKeyMakesNoSecret(s: Keys, sender: UserId, epoch: Epoch, blob: Blob, now: Time)
    ensures var t := SenderKey(s, sender, epoch, blob, now).0; t.me == s.me && t.serial == s.serial
  {
    hide Judge, RetireEarlierOf, Forget;
  }

  lemma StepSeals(s: Keys, step: Step)
    ensures var (t, requests) := Apply(s, step);
            t.me == s.me && SealsInOrder(requests, s.me, s.serial, t.serial)
  {
    hide PeersChanged, ApplyPlacement, Seals, SealsInOrder, SenderKey, RecvKey, Tick;
    match step.op
    case Shown(user, at) =>
      OneSealsInOrder(None, s.me, s.serial, s.serial);
      var t := SetPresence(s, user, at).0;
      if t.room.Some? {
        StateSeals(t, t.room.value, t.epoch, t.roomPeers, step.now, step.unix);
      }
      OneSealsInOrder(ReapplyPeers(t, step.now, step.unix).1, s.me, s.serial, ReapplyPeers(t, step.now, step.unix).0.serial);
    case RoomState(room, epoch, peers) =>
      StateSeals(s, room, epoch, peers, step.now, step.unix);
      var (t, request) := PeersChanged(s, room, epoch, peers, step.now, step.unix);
      OneSealsInOrder(request, s.me, s.serial, t.serial);
    case Placement(to, epoch, tracks, peers) => PlacementSeals(s, to, epoch, tracks, peers, step.now, step.unix);
    case KeyFrom(sender, epoch, blob) =>
      SenderKeyMakesNoSecret(s, sender, epoch, blob, step.now);
      OneSealsInOrder(None, s.me, s.serial, s.serial);
    case _ =>
      OtherStepsMakeNoSecret(s, step);
      OneSealsInOrder(None, s.me, s.serial, s.serial);
  }

  lemma OtherStepsMakeNoSecret(s: Keys, step: Step)
    requires step.op.Read? || step.op.Ticked? || step.op.Renewed? || step.op.Reconnected?
    ensures var (t, requests) := Apply(s, step); t.me == s.me && t.serial == s.serial && requests == []
  {
    hide Kept, CachedFor, FreshEarly;
  }

  lemma {:induction false} RunSeals(s: Keys, steps: seq<Step>)
    ensures SealsInOrder(Published(s, steps), s.me, s.serial, Run(s, steps).serial)
    decreases |steps|
  {
    if steps != [] {
      var (t, requests) := Apply(s, steps[0]);
      StepSeals(s, steps[0]);
      RunSeals(t, steps[1..]);
      SealsJoin(requests, Published(t, steps[1..]), s.me, s.serial, t.serial, Run(t, steps[1..]).serial);
    }
  }

  lemma {:induction false} LaterSealsLater(requests: seq<Publish>, me: UserId, low: nat, high: nat, i: nat, n: nat)
    requires SealsInOrder(requests, me, low, high) && i < |requests| && Seals(requests[i], me, n)
    ensures low <= n
    decreases |requests|
  {
    var serial: nat :| low <= serial < high && Seals(requests[0], me, serial) && SealsInOrder(requests[1..], me, serial + 1, high);
    if i == 0 {
      var u: int := Pick(requests[0].wrapped.Keys);
      assert requests[0].wrapped[u].secret == Secret(me, serial);
    } else {
      LaterSealsLater(requests[1..], me, serial + 1, high, i - 1, n);
    }
  }

  lemma {:induction false} SealedOnce(requests: seq<Publish>, me: UserId, low: nat, high: nat, i: nat, j: nat, u: UserId, w: UserId)
    requires SealsInOrder(requests, me, low, high) && i < j < |requests| && u in requests[i].wrapped && w in requests[j].wrapped
    ensures requests[i].wrapped[u].Sealed? && requests[j].wrapped[w].Sealed?
    ensures requests[i].wrapped[u].secret != requests[j].wrapped[w].secret
    decreases |requests|
  {
    var serial: nat :| low <= serial < high && Seals(requests[0], me, serial) && SealsInOrder(requests[1..], me, serial + 1, high);
    if i == 0 {
      SomeSerial(requests[1..], me, serial + 1, high, j - 1);
      var n: nat :| Seals(requests[j], me, n);
      LaterSealsLater(requests[1..], me, serial + 1, high, j - 1, n);
    } else {
      SealedOnce(requests[1..], me, serial + 1, high, i - 1, j - 1, u, w);
    }
  }

  lemma {:induction false} SomeSerial(requests: seq<Publish>, me: UserId, low: nat, high: nat, i: nat)
    requires SealsInOrder(requests, me, low, high) && i < |requests|
    ensures exists n: nat :: Seals(requests[i], me, n)
    decreases |requests|
  {
    var serial: nat :| low <= serial < high && Seals(requests[0], me, serial) && SealsInOrder(requests[1..], me, serial + 1, high);
    if i > 0 {
      SomeSerial(requests[1..], me, serial + 1, high, i - 1);
    }
  }

  /** Over any run, reconnects included, no two requests publish the same secret of ours. */
  lemma SecretsArePublishedOnce(s: Keys, steps: seq<Step>, i: nat, j: nat, u: UserId, w: UserId)
    requires var requests := Published(s, steps);
             i < j < |requests| && u in requests[i].wrapped && w in requests[j].wrapped
    ensures var requests := Published(s, steps);
      && requests[i].wrapped[u].Sealed? && requests[j].wrapped[w].Sealed?
      && requests[i].wrapped[u].secret != requests[j].wrapped[w].secret
  {
    RunSeals(s, steps);
    SealedOnce(Published(s, steps), s.me, s.serial, Run(s, steps).serial, i, j, u, w);
  }
}
