/** What whole runs of the video queue guarantee. */
module VideoTheorems {
  import opened Collections
  import opened VideoModel
  import opened VideoInvariants

  datatype Op =
    | PushOp(packet: Packet, now: Time)
    | LoseOp(lost: Lost)
    | EnforceOp(now: Time)
    | ForgetOp
    | PopOp

  function Apply(v: Video, op: Op): Video {
    match op
    case PushOp(p, now) => PushVideo(v, p, now)
    case LoseOp(lost) => Lose(v, lost)
    case EnforceOp(now) => EnforceBudget(v, now)
    case ForgetOp => ForgetQuietTracks(v)
    case PopOp => Pop(v).0
  }

  function Run(v: Video, ops: seq<Op>): Video
    decreases |ops|
  {
    if ops == [] then v else Run(Apply(v, ops[0]), ops[1..])
  }

  lemma ApplyKeepsInv(v: Video, op: Op)
    requires Inv(v)
    ensures Inv(Apply(v, op))
  {
    match op
    case PushOp(p, now) => PushKeepsInv(v, p, now);
    case LoseOp(lost) => LoseKeepsInv(v, lost);
    case EnforceOp(now) =>
      GiveUpKeepsInv(v, now);
      DropOverdueKeepsInv(GiveUpIdleUnits(v, now), now);
      DropExcessKeepsInv(DropOverdue(GiveUpIdleUnits(v, now), now));
    case ForgetOp => ForgetKeepsInv(v);
    case PopOp => PopKeepsInv(v);
  }

  /** After any run, started units are older than waiting ones, a waiting unit holds packets,
      every fate that points at a unit names one of that track and start, and no track's
      history outgrows its bound. */
  lemma {:induction false} RunsKeepInv(v: Video, ops: seq<Op>)
    requires Inv(v)
    ensures Inv(Run(v, ops))
    decreases |ops|
  {
    if ops != [] {
      ApplyKeepsInv(v, ops[0]);
      RunsKeepInv(Apply(v, ops[0]), ops[1..]);
    }
  }

  // ---- Arrival times -------------------------------------------------------------------

  /** Units arrived in id order, the last by `clock`. */
  ghost predicate ArrivedBy(units: map<int, VideoUnit>, clock: Time) {
    && (forall i, j :: i in units && j in units && i < j ==> units[i].arrived <= units[j].arrived)
    && (forall i :: i in units ==> units[i].arrived <= clock)
  }

  /** Every unit left is one there was, or nearly so: a copy may have become the one counted. */
  ghost predicate Left(before: map<int, VideoUnit>, after: map<int, VideoUnit>) {
    forall id :: id in after ==> id in before && after[id].(copy := false) == before[id].(copy := false)
  }

  lemma DropLeaves(v: Video, id: int)
    ensures Left(v.units, Drop(v, id).units)
  {
  }

  lemma {:induction false} DropOverdueLeaves(v: Video, now: Time)
    ensures Left(v.units, DropOverdue(v, now).units)
    decreases |v.units|
  {
    if OverBudget(v.units, now) && UnstartedVictim(v.units).Some? {
      var victim := UnstartedVictim(v.units).value;
      DropShrinks(v, victim);
      DropLeaves(v, victim);
      DropOverdueLeaves(Drop(v, victim), now);
    }
  }

  lemma {:induction false} DropExcessLeaves(v: Video)
    ensures Left(v.units, DropExcess(v).units)
    decreases |v.units|
  {
    if QueuedBytes(v.units) > MAX_QUEUED_VIDEO_BYTES && ByteVictim(v.units).Some? {
      var victim := ByteVictim(v.units).value;
      DropShrinks(v, victim);
      DropLeaves(v, victim);
      DropExcessLeaves(Drop(v, victim));
    }
  }

  /** The budget drops only whole units: whatever is left is as it was. */
  lemma BudgetDropsWholeUnits(v: Video, now: Time)
    ensures Left(v.units, EnforceBudget(v, now).units)
  {
    DropOverdueLeaves(GiveUpIdleUnits(v, now), now);
    DropExcessLeaves(DropOverdue(GiveUpIdleUnits(v, now), now));
  }

  lemma LeftArrived(before: map<int, VideoUnit>, after: map<int, VideoUnit>, clock: Time)
    requires ArrivedBy(before, clock) && Left(before, after)
    ensures ArrivedBy(after, clock)
  {
  }

  function TimeOf(op: Op, clock: Time): Time {
    match op
    case PushOp(_, now) => now
    case EnforceOp(now) => now
    case _ => clock
  }

  /** Time never goes back along the run. */
  ghost predicate TimeFlows(ops: seq<Op>, clock: Time)
    decreases |ops|
  {
    ops != [] ==> clock <= TimeOf(ops[0], clock) && TimeFlows(ops[1..], TimeOf(ops[0], clock))
  }

  function ClockAfter(ops: seq<Op>, clock: Time): Time
    decreases |ops|
  {
    if ops == [] then clock else ClockAfter(ops[1..], TimeOf(ops[0], clock))
  }

  lemma ApplyKeepsArrivals(v: Video, op: Op, clock: Time)
    requires Inv(v) && ArrivedBy(v.units, clock) && clock <= TimeOf(op, clock)
    ensures ArrivedBy(Apply(v, op).units, TimeOf(op, clock))
  {
    match op
    case PushOp(p, now) => PushKeepsArrivals(v, p, now);
    case EnforceOp(now) =>
      BudgetDropsWholeUnits(v, now);
      LeftArrived(v.units, EnforceBudget(v, now).units, now);
    case LoseOp(lost) =>
      LoseLeaves(v, lost);
      LeftArrived(v.units, Lose(v, lost).units, clock);
    case ForgetOp =>
    case PopOp => PopKeepsArrivals(v, clock);
  }

  lemma LoseLeaves(v: Video, lost: Lost)
    ensures Left(v.units, Lose(v, lost).units)
  {
    var noted := v.(activeTracks := v.activeTracks + {lost.mediaId});
    var fates := FatesOf(v.history, lost.mediaId);
    var start := UnitStart(fates, lost.seqNo);
    if start.Some? && fates[start.value].Queued? {
      DropLeaves(noted, fates[start.value].id);
    }
  }

  lemma PopKeepsArrivals(v: Video, clock: Time)
    requires ArrivedBy(v.units, clock)
    ensures ArrivedBy(Pop(v).0.units, clock)
  {
    forall id ensures id in Pop(v).0.units ==> id in v.units && Pop(v).0.units[id].arrived == v.units[id].arrived {
    }
  }

  lemma PushKeepsArrivals(v: Video, p: Packet, now: Time)
    requires Inv(v) && ArrivedBy(v.units, now)
    ensures ArrivedBy(PushVideo(v, p, now).units, now)
  {
    var noted := v.(activeTracks := v.activeTracks + {p.mediaId});
    var fates := FatesOf(v.history, p.mediaId);
    var start := UnitStart(fates, p.seqNo);
    if !p.first && start.Some? && fates[start.value].Queued? {
      DropLeaves(noted, fates[start.value].id);
      LeftArrived(v.units, Drop(noted, fates[start.value].id).units, now);
    }
  }

  lemma {:induction false} RunsKeepArrivals(v: Video, ops: seq<Op>, clock: Time)
    requires Inv(v) && ArrivedBy(v.units, clock) && TimeFlows(ops, clock)
    ensures ArrivedBy(Run(v, ops).units, ClockAfter(ops, clock))
    decreases |ops|
  {
    if ops != [] {
      ApplyKeepsInv(v, ops[0]);
      ApplyKeepsArrivals(v, ops[0], clock);
      RunsKeepArrivals(Apply(v, ops[0]), ops[1..], TimeOf(ops[0], clock));
    }
  }

  // ---- The budget ----------------------------------------------------------------------

  lemma {:induction false} NothingOverdueIsLeft(v: Video, now: Time)
    ensures !OverBudget(DropOverdue(v, now).units, now)
    decreases |v.units|
  {
    if OverBudget(v.units, now) {
      var victim := UnstartedVictim(v.units).value;
      DropShrinks(v, victim);
      NothingOverdueIsLeft(Drop(v, victim), now);
    }
  }

  lemma NothingToDrop(units: map<int, VideoUnit>)
    requires ByteVictim(units).None?
    ensures QueuedBytes(units) == 0
  {
    forall id ensures id !in units {
      assert id !in Waiting(units) && id !in Started(units);
    }
    Empty(Sizes(units));
  }

  lemma {:induction false} NoExcessIsLeft(v: Video)
    ensures QueuedBytes(DropExcess(v).units) <= MAX_QUEUED_VIDEO_BYTES
    decreases |v.units|
  {
    if QueuedBytes(v.units) > MAX_QUEUED_VIDEO_BYTES {
      if ByteVictim(v.units).None? {
        NothingToDrop(v.units);
      } else {
        var victim := ByteVictim(v.units).value;
        DropShrinks(v, victim);
        NoExcessIsLeft(Drop(v, victim));
      }
    }
  }

  /** Although only the first waiting unit is looked at, once the budget is enforced at the end
      of any run in which time flows, no waiting unit at all has waited too long, and the
      queued bytes are within their cap. */
  lemma BudgetIsMet(ops: seq<Op>, clock: Time, now: Time)
    requires TimeFlows(ops, clock) && ClockAfter(ops, clock) <= now
    ensures var after := EnforceBudget(Run(EMPTY, ops), now).units;
      && Timely(after, now)
      && QueuedBytes(after) <= 2_343_750
  {
    RunsKeepInv(EMPTY, ops);
    RunsKeepArrivals(EMPTY, ops, clock);
    TimelyAfterEnforcing(Run(EMPTY, ops), ClockAfter(ops, clock), now);
    NoExcessIsLeft(DropOverdue(GiveUpIdleUnits(Run(EMPTY, ops), now), now));
  }

  predicate Timely(units: map<int, VideoUnit>, now: Time) {
    forall id :: id in units && !units[id].started ==> now - units[id].arrived <= 150_000_000
  }

  /** The first waiting unit has waited longest. */
  lemma FirstWaitedLongest(units: map<int, VideoUnit>, clock: Time, now: Time)
    requires ArrivedBy(units, clock) && !OverBudget(units, now)
    ensures Timely(units, now)
  {
    forall id | id in units && !units[id].started ensures now - units[id].arrived <= VIDEO_BUDGET {
      assert id in Waiting(units);
      assert Min(Waiting(units)) in units;
    }
  }

  lemma TimelyAfterEnforcing(v: Video, clock: Time, now: Time)
    requires ArrivedBy(v.units, clock)
    ensures Timely(EnforceBudget(v, now).units, now)
  {
    var kept := GiveUpIdleUnits(v, now);
    var timely := DropOverdue(kept, now);
    DropOverdueLeaves(kept, now);
    LeftArrived(kept.units, timely.units, clock);
    NothingOverdueIsLeft(kept, now);
    FirstWaitedLongest(timely.units, clock, now);
    DropExcessLeaves(timely);
    TimelyIsKept(timely.units, DropExcess(timely).units, now);
  }

  lemma TimelyIsKept(before: map<int, VideoUnit>, after: map<int, VideoUnit>, now: Time)
    requires Timely(before, now) && Left(before, after)
    ensures Timely(after, now)
  {
  }

  function OnlyStarted(units: map<int, VideoUnit>): map<int, VideoUnit> {
    map id | id in units && units[id].started :: units[id]
  }

  lemma SameStarted(before: map<int, VideoUnit>, after: map<int, VideoUnit>)
    requires Left(before, after) && Started(before) == Started(after)
    ensures QueuedBytes(OnlyStarted(before)) == QueuedBytes(OnlyStarted(after))
  {
    var b, a := Sizes(OnlyStarted(before)), Sizes(OnlyStarted(after));
    assert b.Keys == Started(before) && a.Keys == Started(after);
    forall id | id in b ensures b[id] == a[id] {
      assert id in before && id in after;
    }
    assert b == a;
  }

  /** A started unit that held packets leaves early only as a last resort: by then nothing is
      waiting any more, and the started units alone exceeded the byte cap. */
  lemma {:induction false} StartedUnitsGoLast(v: Video, id: int)
    requires id in v.units && v.units[id].started && id !in DropExcess(v).units
    ensures Waiting(DropExcess(v).units) == {}
    ensures QueuedBytes(OnlyStarted(v.units)) > MAX_QUEUED_VIDEO_BYTES
    decreases |v.units|
  {
    var victim := ByteVictim(v.units).value;
    DropShrinks(v, victim);
    DropLeaves(v, victim);
    if v.units[victim].started {
      assert OnlyStarted(v.units) == v.units by {
        assert Waiting(v.units) == {};
      }
      NothingStartsWaiting(v);
    } else {
      WaitingOneGone(v, victim);
      StartedUnitsGoLast(Drop(v, victim), id);
    }
  }

  lemma NothingStartsWaiting(v: Video)
    requires Waiting(v.units) == {}
    ensures Waiting(DropExcess(v).units) == {}
  {
    DropExcessLeaves(v);
    forall id | id in DropExcess(v).units ensures DropExcess(v).units[id].started {
      assert id !in Waiting(v.units);
    }
  }

  lemma WaitingOneGone(v: Video, victim: int)
    requires victim in v.units && !v.units[victim].started
    ensures QueuedBytes(OnlyStarted(Drop(v, victim).units)) == QueuedBytes(OnlyStarted(v.units))
    ensures forall id :: id in v.units && v.units[id].started ==> id in Drop(v, victim).units && Drop(v, victim).units[id].started
  {
    DropShrinks(v, victim);
    DropLeaves(v, victim);
    assert Started(v.units) == Started(Drop(v, victim).units);
    SameStarted(v.units, Drop(v, victim).units);
  }

  lemma {:induction false} OverdueSparesStarted(v: Video, now: Time)
    ensures Started(DropOverdue(v, now).units) == Started(v.units)
    decreases |v.units|
  {
    if OverBudget(v.units, now) && UnstartedVictim(v.units).Some? {
      var victim := UnstartedVictim(v.units).value;
      DropShrinks(v, victim);
      DropLeaves(v, victim);
      assert Started(v.units) == Started(Drop(v, victim).units);
      OverdueSparesStarted(Drop(v, victim), now);
    }
  }

  /** The same of the whole budget, for every started unit that holds packets or had a fragment in
      the last second. */
  lemma BudgetDropsStartedLast(v: Video, now: Time, id: int)
    requires id in v.units && v.units[id].started
    requires v.units[id].packets != [] || now - v.units[id].lastFragment <= 1_000_000_000
    requires id !in EnforceBudget(v, now).units
    ensures Waiting(EnforceBudget(v, now).units) == {}
    ensures QueuedBytes(OnlyStarted(GiveUpIdleUnits(v, now).units)) > MAX_QUEUED_VIDEO_BYTES
  {
    var kept := GiveUpIdleUnits(v, now);
    var timely := DropOverdue(kept, now);
    OverdueSparesStarted(kept, now);
    DropOverdueLeaves(kept, now);
    assert id in Started(timely.units);
    StartedUnitsGoLast(timely, id);
    SameStarted(kept.units, timely.units);
  }

  // ---- What goes in and what comes out -------------------------------------------------

  datatype Effect =
    | Took(id: int, mediaId: MediaId, seqNo: Seq, bytes: Bytes)
    | Gave(id: int, bytes: Bytes)
    | Neither

  /** The packet a step adds to a unit or serves from one. */
  function EffectOf(v: Video, op: Op): Effect {
    match op
    case PushOp(p, _) => TakenBy(v, p)
    case PopOp =>
      var holding := Holding(v.units);
      if holding == {} then Neither else Gave(Min(holding), v.units[Min(holding)].packets[0])
    case _ => Neither
  }

  function TakenBy(v: Video, p: Packet): Effect {
    if p.first then Took(v.nextId, p.mediaId, p.seqNo, p.bytes) else
    var fates := FatesOf(v.history, p.mediaId);
    match UnitStart(fates, p.seqNo)
    case None => Neither
    case Some(start) =>
      match fates[start]
      case Queued(id) =>
        if id in v.units && v.units[id].received < MAX_UNIT_FRAGMENTS then Took(id, p.mediaId, p.seqNo, p.bytes) else Neither
      case Sent => Took(v.nextId, p.mediaId, p.seqNo, p.bytes)
      case Dropped => Neither
  }

  function Effects(v: Video, ops: seq<Op>): seq<Effect>
    decreases |ops|
  {
    if ops == [] then [] else [EffectOf(v, ops[0])] + Effects(Apply(v, ops[0]), ops[1..])
  }

  function Taken(effects: seq<Effect>, id: int): seq<Bytes> {
    if effects == [] then []
    else (if effects[0].Took? && effects[0].id == id then [effects[0].bytes] else []) + Taken(effects[1..], id)
  }

  function Given(effects: seq<Effect>, id: int): seq<Bytes> {
    if effects == [] then []
    else (if effects[0].Gave? && effects[0].id == id then [effects[0].bytes] else []) + Given(effects[1..], id)
  }

  function Held(v: Video, id: int): seq<Bytes> {
    if id in v.units then v.units[id].packets else []
  }

  ghost predicate Gone(v: Video, id: int) {
    id < v.nextId && id !in v.units
  }

  /** What one step does to one unit: it takes at the back, gives from the front, or leaves
      the queue with what it still held. */
  ghost predicate StepsInOrder(v: Video, w: Video, effect: Effect, id: int) {
    && v.nextId <= w.nextId
    && (Gone(v, id) ==> Gone(w, id) && Taken([effect], id) == [] && Given([effect], id) == [])
    && (!Gone(w, id) ==> Held(v, id) + Taken([effect], id) == Given([effect], id) + Held(w, id))
    && Given([effect], id) <= Held(v, id) + Taken([effect], id)
  }

  lemma PopStepsInOrder(v: Video, id: int)
    requires Inv(v)
    ensures StepsInOrder(v, Pop(v).0, EffectOf(v, PopOp), id)
  {
    var effect := EffectOf(v, PopOp);
    assert Taken([effect], id) == [];
    if effect.Gave? && effect.id == id {
      var packets := v.units[id].packets;
      assert Given([effect], id) == [packets[0]];
      assert packets == [packets[0]] + packets[1..];
    } else {
      assert Given([effect], id) == [];
    }
  }

  lemma PushStepsInOrder(v: Video, p: Packet, now: Time, id: int)
    requires Inv(v)
    ensures StepsInOrder(v, PushVideo(v, p, now), TakenBy(v, p), id)
  {
    var effect := TakenBy(v, p);
    assert Given([effect], id) == [];
    if effect.Took? && effect.id == id {
      assert Taken([effect], id) == [p.bytes];
    } else {
      assert Taken([effect], id) == [];
    }
    var noted := v.(activeTracks := v.activeTracks + {p.mediaId});
    var fates := FatesOf(v.history, p.mediaId);
    var start := UnitStart(fates, p.seqNo);
    if !p.first && start.Some? && fates[start.value].Queued? {
      DropLeaves(noted, fates[start.value].id);
    }
  }

  lemma LeavingStepsInOrder(v: Video, w: Video, id: int)
    requires Left(v.units, w.units) && v.nextId == w.nextId && Inv(v)
    ensures StepsInOrder(v, w, Neither, id)
  {
    assert Taken([Neither], id) == [] && Given([Neither], id) == [];
  }

  lemma StepInOrder(v: Video, op: Op, id: int)
    requires Inv(v)
    ensures StepsInOrder(v, Apply(v, op), EffectOf(v, op), id)
  {
    match op
    case PushOp(p, now) => PushStepsInOrder(v, p, now, id);
    case PopOp => PopStepsInOrder(v, id);
    case LoseOp(lost) =>
      LoseLeaves(v, lost);
      LeavingStepsInOrder(v, Lose(v, lost), id);
    case EnforceOp(now) =>
      BudgetDropsWholeUnits(v, now);
      BudgetKeepsIds(v, now);
      LeavingStepsInOrder(v, EnforceBudget(v, now), id);
    case ForgetOp => LeavingStepsInOrder(v, ForgetQuietTracks(v), id);
  }

  lemma BudgetKeepsIds(v: Video, now: Time)
    ensures EnforceBudget(v, now).nextId == v.nextId
  {
    OverdueKeepsIds(GiveUpIdleUnits(v, now), now);
    ExcessKeepsIds(DropOverdue(GiveUpIdleUnits(v, now), now));
  }

  lemma {:induction false} OverdueKeepsIds(v: Video, now: Time)
    ensures DropOverdue(v, now).nextId == v.nextId
    decreases |v.units|
  {
    if OverBudget(v.units, now) && UnstartedVictim(v.units).Some? {
      var victim := UnstartedVictim(v.units).value;
      DropShrinks(v, victim);
      OverdueKeepsIds(Drop(v, victim), now);
    }
  }

  lemma {:induction false} ExcessKeepsIds(v: Video)
    ensures DropExcess(v).nextId == v.nextId
    decreases |v.units|
  {
    if QueuedBytes(v.units) > MAX_QUEUED_VIDEO_BYTES && ByteVictim(v.units).Some? {
      var victim := ByteVictim(v.units).value;
      DropShrinks(v, victim);
      ExcessKeepsIds(Drop(v, victim));
    }
  }

  /** Along any run, each unit is served in the order its packets came, with none skipped or
      served twice; while it is queued, what it was given is what it served and what it still
      holds; and once gone it is never served again. */
  lemma {:induction false} UnitsFlowInOrder(v: Video, ops: seq<Op>, id: int)
    requires Inv(v)
    ensures var effects := Effects(v, ops);
      && Given(effects, id) <= Held(v, id) + Taken(effects, id)
      && (!Gone(Run(v, ops), id) ==> Held(v, id) + Taken(effects, id) == Given(effects, id) + Held(Run(v, ops), id))
      && (Gone(v, id) ==> Gone(Run(v, ops), id) && Given(effects, id) == [])
    decreases |ops|
  {
    if ops != [] {
      var w, effect := Apply(v, ops[0]), EffectOf(v, ops[0]);
      var rest := Effects(w, ops[1..]);
      StepInOrder(v, ops[0], id);
      ApplyKeepsInv(v, ops[0]);
      UnitsFlowInOrder(w, ops[1..], id);
      FirstEffect(effect, rest, id);
      InOrder(Held(v, id), Taken([effect], id), Given([effect], id), Held(w, id),
              Taken(rest, id), Given(rest, id), Held(Run(v, ops), id), Gone(w, id));
    }
  }

  lemma FirstEffect(effect: Effect, rest: seq<Effect>, id: int)
    ensures Taken([effect] + rest, id) == Taken([effect], id) + Taken(rest, id)
    ensures Given([effect] + rest, id) == Given([effect], id) + Given(rest, id)
  {
    assert ([effect] + rest)[1..] == rest;
  }

  /** Joins the first step of a unit to the rest of its run. */
  lemma InOrder(held: seq<Bytes>, took: seq<Bytes>, gave: seq<Bytes>, next: seq<Bytes>,
                taken: seq<Bytes>, given: seq<Bytes>, last: seq<Bytes>, gone: bool)
    requires gave <= held + took && given <= next + taken
    requires !gone ==> held + took == gave + next
    requires gone ==> given == []
    ensures gave + given <= held + (took + taken)
    ensures !gone && next + taken == given + last ==> held + (took + taken) == gave + given + last
  {
    assert held + (took + taken) == held + took + taken;
    if !gone {
      assert held + took + taken == gave + (next + taken);
    }
  }
}
