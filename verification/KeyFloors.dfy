/**
 Replay floors over whole runs. What a client took part in is noted here on its own, from the
 epochs it was in, and compared with what the floors make of it.
 */
module KeyFloors {
  import opened Collections
  import opened KeyModel
  import opened KeyInvariants
  import opened KeyTheorems
  import opened KeyRuns

  /** The newest epoch, from 1 up, taken part in per room, and what that was for our room when
      we entered it. */
  datatype Past = Past(newest: map<RoomId, Epoch>, before: Option<Epoch>)

  const NOTHING: Past := Past(map[], None)

  function NewestIn(past: Past, room: RoomId): Option<Epoch> {
    if room in past.newest then Some(past.newest[room]) else None
  }

  function TookPart(past: Past, room: RoomId, epoch: Epoch): Past {
    if epoch >= 1 && (room !in past.newest || past.newest[room] < epoch)
    then past.(newest := past.newest[room := epoch]) else past
  }

  /** The past after a step from `s` to `t`. */
  function Note(past: Past, s: Keys, t: Keys): Past {
    if t.room.None? then past.(before := None) else
    var entered := if t.room == s.room then past else past.(before := NewestIn(past, t.room.value));
    TookPart(entered, t.room.value, t.epoch)
  }

  function PastAfter(past: Past, s: Keys, steps: seq<Step>): Past
    decreases |steps|
  {
    if steps == [] then past
    else PastAfter(Note(past, s, Apply(s, steps[0]).0), Apply(s, steps[0]).0, steps[1..])
  }

  ghost predicate FloorsRise(before: Floors, after: Floors) {
    forall k :: k in before ==> k in after && before[k] <= after[k]
  }

  /** The floors cover every epoch from 1 up that we take part in. */
  ghost predicate FloorCovers(s: Keys) {
    && 0 <= s.epoch
    && (s.room.Some? && 1 <= s.epoch ==>
          (s.me, s.room.value) in s.floors && s.epoch <= s.floors[(s.me, s.room.value)])
  }

  /** What a step does to our epoch and the floors, staying in a room or entering one. */
  ghost predicate StepsUp(s: Keys, t: Keys) {
    && t.me == s.me
    && FloorsRise(s.floors, t.floors)
    && FloorCovers(t)
    && (t.room.Some? && t.room == s.room ==> s.epoch <= t.epoch && t.floor == s.floor)
    && (t.room.Some? && t.room != s.room ==>
          t.floor == if (s.me, t.room.value) in s.floors then Some(s.floors[(s.me, t.room.value)]) else None)
  }

  /** Where and when we are, and what the floors say of it. */
  datatype Standing = Standing(me: UserId, room: Option<RoomId>, epoch: Epoch, floors: Floors, floor: Option<Epoch>)

  function StandingOf(s: Keys): Standing {
    Standing(s.me, s.room, s.epoch, s.floors, s.floor)
  }

  /** All that a room state does to our standing. */
  function Moved(s: Standing, epoch: Epoch): Standing {
    s.(epoch := epoch,
       floors := if epoch != s.epoch && s.room.Some? then Raise(s.floors, s.me, s.room.value, epoch) else s.floors)
  }

  lemma RekeyMoves(s: Keys, room: RoomId, epoch: Epoch, now: Time)
    ensures StandingOf(Rekey(s, room, epoch, now).0) == Moved(StandingOf(s), epoch)
  {
    var ready := if NeedsNewSecret(s, epoch) then StartEpoch(s, epoch, now) else s;
    assert StandingOf(ready) == Moved(StandingOf(s), epoch);
    WrapStands(ready, room);
  }

  lemma WrapStands(s: Keys, room: RoomId)
    ensures StandingOf(WrapForNewPeers(s, room).0) == StandingOf(s)
  {
  }

  lemma StateMoves(s: Keys, room: RoomId, epoch: Epoch, peers: seq<Peer>, now: Time, unix: nat)
    ensures StandingOf(PeersChanged(s, room, epoch, peers, now, unix).0) ==
            if Accepts(s, room, epoch) then Moved(StandingOf(s), epoch) else StandingOf(s)
  {
    if Accepts(s, room, epoch) {
      var trusting := TrustState(s, room, peers, now, unix);
      TrustStands(s, room, peers, now, unix);
      RekeyMoves(trusting, room, epoch, now);
      EarlyTouches(Rekey(trusting, room, epoch, now).0, now);
    }
  }

  lemma StateStepsUp(s: Keys, room: RoomId, epoch: Epoch, peers: seq<Peer>, now: Time, unix: nat)
    requires FloorCovers(s)
    ensures var t := PeersChanged(s, room, epoch, peers, now, unix).0; StepsUp(s, t) && t.room == s.room
  {
    StateMoves(s, room, epoch, peers, now, unix);
    MovedStepsUp(s, PeersChanged(s, room, epoch, peers, now, unix).0, epoch);
  }

  lemma MovedStepsUp(s: Keys, t: Keys, epoch: Epoch)
    requires FloorCovers(s)
    requires StandingOf(t) == StandingOf(s) || (s.epoch <= epoch && StandingOf(t) == Moved(StandingOf(s), epoch))
    ensures StepsUp(s, t) && t.room == s.room
  {
  }

  lemma CatchUpStepsUp(s: Keys, room: RoomId, epoch: Epoch, now: Time, unix: nat)
    requires FloorCovers(s)
    ensures var t := CatchUp(s, room, epoch, now, unix).0; StepsUp(s, t) && t.room == s.room
  {
    if s.stashed.Some? {
      StateStepsUp(s.(stashed := None), room, s.stashed.value.epoch, s.stashed.value.peers, now, unix);
    }
  }

  lemma StepsUpTwice(s: Keys, t: Keys, u: Keys)
    requires StepsUp(s, t) && StepsUp(t, u) && u.room == t.room
    ensures StepsUp(s, u)
  {
  }

  lemma PlaceStepsUp(s: Keys, to: Option<RoomId>, tracks: Option<Tracks>)
    requires FloorCovers(s)
    ensures StepsUp(s, Place(s, to, tracks)) && Place(s, to, tracks).room == to
  {
  }

  lemma PlacementStepsUp(s: Keys, to: Option<RoomId>, epoch: Epoch, tracks: Option<Tracks>, peers: seq<Peer>, now: Time, unix: nat)
    requires FloorCovers(s)
    ensures StepsUp(s, ApplyPlacement(s, to, epoch, tracks, peers, now, unix).0)
  {
    var placed := Place(s, to, tracks);
    PlaceStepsUp(s, to, tracks);
    if !(to.Some? && to == s.room && epoch < s.epoch) && to.Some? {
      var entered := PeersChanged(placed, to.value, epoch, peers, now, unix).0;
      StateStepsUp(placed, to.value, epoch, peers, now, unix);
      StepsUpTwice(s, placed, entered);
      CatchUpStepsUp(entered, to.value, epoch, now, unix);
      StepsUpTwice(s, entered, CatchUp(entered, to.value, epoch, now, unix).0);
    }
  }

  lemma SenderKeyStands(s: Keys, sender: UserId, epoch: Epoch, blob: Blob, now: Time)
    ensures StandingOf(SenderKey(s, sender, epoch, blob, now).0) == StandingOf(s)
  {
    hide Judge, StoreKey;
    if Judge(s, sender, epoch, blob, now).Store? {
      var v := Judge(s, sender, epoch, blob, now);
      StoreStands(s, (sender, epoch), Received(v.secret, v.retireAt), now);
    }
  }

  lemma StoreStands(s: Keys, k: SenderAt, r: Received, now: Time)
    ensures StandingOf(StoreKey(s, k, r, now)) == StandingOf(s)
  {
    hide RetireEarlierOf, Forget;
  }

  lemma ShownStepsUp(s: Keys, user: UserId, at: Option<RoomId>, now: Time, unix: nat)
    requires FloorCovers(s)
    ensures StepsUp(s, SetPresence(s, user, at).0)
    ensures StepsUp(s, ReapplyPeers(SetPresence(s, user, at).0, now, unix).0)
  {
    hide PeersChanged;
    var t := SetPresence(s, user, at).0;
    if t.room.Some? {
      StateStepsUp(t, t.room.value, t.epoch, t.roomPeers, now, unix);
    }
  }

  lemma StepsAreUp(s: Keys, step: Step)
    requires FloorCovers(s)
    ensures StepsUp(s, Apply(s, step).0)
  {
    hide PeersChanged, ReapplyPeers, ApplyPlacement, SetPresence, SenderKey, RecvKey, Tick, StepsUp;
    match step.op
    case Shown(user, at) => ShownStepsUp(s, user, at, step.now, step.unix);
    case RoomState(room, epoch, peers) => StateStepsUp(s, room, epoch, peers, step.now, step.unix);
    case Placement(to, epoch, tracks, peers) => PlacementStepsUp(s, to, epoch, tracks, peers, step.now, step.unix);
    case KeyFrom(sender, epoch, blob) =>
      SenderKeyStands(s, sender, epoch, blob, step.now);
      MovedStepsUp(s, Apply(s, step).0, epoch);
    case Reconnected(encryption) => RestartStepsUp(s, encryption, step.now);
    case _ =>
      OthersStand(s, step);
      MovedStepsUp(s, Apply(s, step).0, s.epoch);
  }

  lemma OthersStand(s: Keys, step: Step)
    requires step.op.Read? || step.op.Ticked? || step.op.Renewed?
    ensures StandingOf(Apply(s, step).0) == StandingOf(s)
  {
    hide Kept, CachedFor, FreshEarly;
  }

  lemma RestartStepsUp(s: Keys, encryption: PublicKey, now: Time)
    requires FloorCovers(s)
    ensures StepsUp(s, New(s.me, s.server, s.weak, encryption, s.floors, now, s.serial))
  {
  }

  /** The floors remember at least what the past does. */
  ghost predicate Remembers(s: Keys, past: Past) {
    && FloorCovers(s)
    && (forall r :: r in past.newest ==> (s.me, r) in s.floors && past.newest[r] <= s.floors[(s.me, r)])
    && (s.room.None? ==> past.before == None)
    && (past.before.Some? ==> s.floor.Some? && past.before.value <= s.floor.value)
  }

  lemma StepRemembers(s: Keys, step: Step, past: Past)
    requires Remembers(s, past)
    ensures Remembers(Apply(s, step).0, Note(past, s, Apply(s, step).0))
  {
    StepsAreUp(s, step);
  }

  lemma {:induction false} RunRemembers(s: Keys, steps: seq<Step>, past: Past)
    requires Remembers(s, past)
    ensures Remembers(Run(s, steps), PastAfter(past, s, steps))
    ensures FloorsRise(s.floors, Run(s, steps).floors)
    decreases |steps|
  {
    if steps != [] {
      var t := Apply(s, steps[0]).0;
      StepsAreUp(s, steps[0]);
      StepRemembers(s, steps[0], past);
      RunRemembers(t, steps[1..], Note(past, s, t));
    }
  }

  /** Once we have entered a room again, whatever room changes, lobby trips and reconnects lie
      between, nothing is stored or read for any epoch at or below the newest we had taken part
      in there before. */
  lemma ReplaysAreRefused(me: UserId, server: Server, weak: set<PublicKey>, encryption: PublicKey, floors: Floors,
                          start: Time, serial: nat, steps: seq<Step>, epoch: Epoch, sender: UserId, id: MediaId)
    requires TimeFlows(steps, start)
    requires var s := New(me, server, weak, encryption, floors, start, serial);
             var past := PastAfter(NOTHING, s, steps);
             past.before.Some? && epoch <= past.before.value
    ensures var s := Run(New(me, server, weak, encryption, floors, start, serial), steps);
            (sender, epoch) !in s.received && RecvKey(s, id, epoch).1 == None
  {
    var s := New(me, server, weak, encryption, floors, start, serial);
    NewKeeps(me, server, weak, encryption, floors, start, serial);
    RunsKeep(s, steps, start);
    RunRemembers(s, steps, NOTHING);
  }

  /** Along any run floors only rise, and our epoch never falls within one stay. */
  lemma EpochsRise(s: Keys, steps: seq<Step>, next: Step)
    requires FloorCovers(s)
    ensures var t := Run(s, steps);
            var u := Apply(t, next).0;
      && FloorsRise(s.floors, t.floors) && FloorsRise(t.floors, u.floors)
      && (u.room.Some? && u.room == t.room ==> t.epoch <= u.epoch)
  {
    RunRemembers(s, steps, Past(map[], None));
    StepsAreUp(Run(s, steps), next);
  }
}
