/** Which unit a fragment joins and which one a loss takes out, in the numbers of the packets. */
module VideoFragments {
  import opened Collections
  import opened VideoModel
  import opened VideoInvariants
  import opened VideoTheorems

  /** `start` is remembered, not after `seqNo`, and no other remembered start lies between the two. */
  ghost predicate IsClosest(fates: Fates, seqNo: Seq, start: Seq) {
    start in fates && start <= seqNo && forall s :: s in fates && start < s ==> seqNo < s
  }

  lemma StartIsClosest(fates: Fates, seqNo: Seq, start: Seq)
    ensures UnitStart(fates, seqNo) == Some(start) <==> IsClosest(fates, seqNo, start)
    ensures UnitStart(fates, seqNo) == None <==> forall s :: s in fates ==> seqNo < s
  {
    var below := AtOrBelow(fates, seqNo);
    assert forall s :: s in fates && s <= seqNo ==> s in below;
  }

  // ---- One first fragment ------------------------------------------------------------------

  /** A first fragment opens a unit behind all others, a copy if its start is remembered and not
      dropped; a dropped one is taken back from the count. Its start is queued under that unit from
      then on, unless so many later ones are remembered. */
  lemma FirstOpensUnit(v: Video, p: Packet, now: Time)
    requires p.first
    ensures var w, fates := PushVideo(v, p, now), FatesOf(v.history, p.mediaId);
      var dropped := p.seqNo in fates && fates[p.seqNo] == Dropped;
      && w.units == v.units[v.nextId := VideoUnit(v.nextId, p.mediaId, [p.bytes], 1, now, now, false, p.last, false, p.seqNo,
                                                  p.seqNo in fates && !dropped)]
      && w.nextId == v.nextId + 1
      && FatesOf(w.history, p.mediaId) == Newest(fates[p.seqNo := Queued(v.nextId)])
      && (forall m :: m != p.mediaId ==> FatesOf(w.history, m) == FatesOf(v.history, m) && CountersOf(w.stats, m) == CountersOf(v.stats, m))
      && CountersOf(w.stats, p.mediaId).forwarded == CountersOf(v.stats, p.mediaId).forwarded
      && CountersOf(w.stats, p.mediaId).droppedUnits ==
           CountersOf(v.stats, p.mediaId).droppedUnits - if dropped && CountersOf(v.stats, p.mediaId).droppedUnits > 0 then 1 else 0
  {
  }

  // ---- Counting ----------------------------------------------------------------------------

  /** Another copy of the unit is queued. */
  ghost predicate HasCopy(units: map<int, VideoUnit>, id: int)
    requires id in units
  {
    exists twin :: twin in units && twin != id && !units[twin].stray
                   && units[twin].mediaId == units[id].mediaId && units[twin].firstSeq == units[id].firstSeq
  }

  ghost predicate IsCounted(units: map<int, VideoUnit>, twin: int, u: VideoUnit) {
    twin in units && !units[twin].stray && !units[twin].copy && units[twin].mediaId == u.mediaId && units[twin].firstSeq == u.firstSeq
  }

  /** A dropped unit counts just once, with the last of its copies: it adds one exactly if it is no
      stray, no copy and none is queued. Of the copies left, the oldest is none any more. */
  lemma DropCounts(v: Video, id: int, m: MediaId)
    requires id in v.units
    ensures var u, w := v.units[id], Drop(v, id);
      && CountersOf(w.stats, m).forwarded == CountersOf(v.stats, m).forwarded
      && CountersOf(w.stats, m).droppedUnits == CountersOf(v.stats, m).droppedUnits +
           (if m == u.mediaId && !u.stray && !u.copy && !HasCopy(v.units, id) then 1 else 0)
      && (HasCopy(v.units, id) ==> exists twin :: IsCounted(w.units, twin, u))
      && w.units.Keys == v.units.Keys - {id} && Left(v.units, w.units)
  {
    var u, left := v.units[id], Finish(v, id, Dropped);
    var twins := Twins(left.units, u.mediaId, u.firstSeq);
    DropShrinks(v, id);
    DropLeaves(v, id);
    forall twin | twin in v.units && twin != id && !v.units[twin].stray
      && v.units[twin].mediaId == u.mediaId && v.units[twin].firstSeq == u.firstSeq ensures twin in twins {
    }
    if twins != {} {
      var twin := Min(twins);
      assert twin in v.units && v.units[twin] == left.units[twin];
      assert HasCopy(v.units, id);
      assert IsCounted(Drop(v, id).units, twin, u);
    }
  }

  /** Serving takes the first packet of the unit that came first among those holding any. That
      starts the unit, and counts as forwarding it unless it was started, a stray or a copy. With
      its last packet, once complete, it leaves and its start is sent. */
  lemma ServingTakesTheOldest(v: Video, id: int, m: MediaId)
    requires Inv(v) && id in v.units && v.units[id].packets != []
    requires forall other :: other in v.units && v.units[other].packets != [] ==> id <= other
    ensures var u, w := v.units[id], Pop(v).0;
      && Pop(v).1 == Some(u.packets[0])
      && (|u.packets| == 1 && u.complete ==> w.units == v.units - {id})
      && (!(|u.packets| == 1 && u.complete) ==> w.units == v.units[id := u.(started := true, packets := u.packets[1..])]
                                                && w.history == v.history)
      && (|u.packets| == 1 && u.complete && u.firstSeq in FatesOf(v.history, u.mediaId) ==>
            var fate := FatesOf(v.history, u.mediaId)[u.firstSeq];
            FatesOf(w.history, u.mediaId) == FatesOf(v.history, u.mediaId)[u.firstSeq := if fate == Queued(id) then Sent else fate])
      && CountersOf(w.stats, m).droppedUnits == CountersOf(v.stats, m).droppedUnits
      && CountersOf(w.stats, m).forwarded == CountersOf(v.stats, m).forwarded +
           (if m == u.mediaId && !u.started && !u.stray && !u.copy then 1 else 0)
  {
    var u := v.units[id];
    assert id in Holding(v.units);
    assert Min(Holding(v.units)) == id;
    var rest := u.(started := true, packets := u.packets[1..]);
    assert v.units[id := rest] - {id} == v.units - {id};
    assert rest.firstSeq == u.firstSeq && rest.id == id;
  }

  lemma NothingIsServed(v: Video)
    requires forall id :: id in v.units ==> v.units[id].packets == []
    ensures Pop(v) == (v, None)
  {
    forall id ensures id !in Holding(v.units) {
    }
    SameSet(Holding(v.units), {});
  }

  // ---- One fragment ----------------------------------------------------------------------

  /** A fragment goes to the unit that begins at the closest start: onto its end while it is queued,
      unless the unit has all the fragments it may have and is dropped for it; into a unit of its own
      once it is sent; and nowhere once it is dropped. */
  lemma FragmentJoins(v: Video, p: Packet, now: Time, start: Seq)
    requires Inv(v) && !p.first && IsClosest(FatesOf(v.history, p.mediaId), p.seqNo, start)
    ensures var w := PushVideo(v, p, now);
      match FatesOf(v.history, p.mediaId)[start]
      case Queued(id) =>
        && id in v.units && !v.units[id].stray && v.units[id].mediaId == p.mediaId && v.units[id].firstSeq == start
        && if v.units[id].received < 4096 then
             var u := v.units[id];
             && w.history == v.history
             && w.units == v.units[id := VideoUnit(u.id, u.mediaId, u.packets + [p.bytes], u.received + 1, u.arrived,
                                                   now, u.started, u.complete || p.last, false, start, u.copy)]
           else w.units.Keys == v.units.Keys - {id} && Left(v.units, w.units)
      case Sent =>
        && w.history == v.history
        && w.units == v.units[v.nextId :=
             VideoUnit(v.nextId, p.mediaId, [p.bytes], 1, now, now, false, true, true, p.seqNo, false)]
      case Dropped => w.history == v.history && w.units == v.units
  {
    StartIsClosest(FatesOf(v.history, p.mediaId), p.seqNo, start);
    assert FateIsTrue(v, p.mediaId, start);
    var noted := v.(activeTracks := v.activeTracks + {p.mediaId});
    match FatesOf(v.history, p.mediaId)[start] {
      case Queued(id) =>
        DropShrinks(noted, id);
        DropLeaves(noted, id);
      case _ =>
    }
  }

  /** With every start remembered after it, or none at all, a fragment is let go. */
  lemma FragmentIsLost(v: Video, p: Packet, now: Time)
    requires !p.first && forall s :: s in FatesOf(v.history, p.mediaId) ==> p.seqNo < s
    ensures PushVideo(v, p, now).units == v.units && PushVideo(v, p, now).history == v.history
  {
    StartIsClosest(FatesOf(v.history, p.mediaId), p.seqNo, p.seqNo);
  }

  // ---- One loss --------------------------------------------------------------------------

  /** A lost fragment takes the unit it was of out of the queue, whole, and nothing else; its start
      is dropped from then on. One of a unit that was sent makes that start a dropped one. */
  lemma LossTakesItsUnit(v: Video, lost: Lost, start: Seq)
    requires Inv(v) && !lost.first && IsClosest(FatesOf(v.history, lost.mediaId), lost.seqNo, start)
    ensures var w, fate := Lose(v, lost), FatesOf(v.history, lost.mediaId)[start];
      && w.units.Keys == (if fate.Queued? then v.units.Keys - {fate.id} else v.units.Keys)
      && Left(v.units, w.units)
      && (fate.Queued? ==> fate.id in v.units && v.units[fate.id].mediaId == lost.mediaId && v.units[fate.id].firstSeq == start)
      && (fate.Queued? ==> FatesOf(w.history, lost.mediaId) == FatesOf(v.history, lost.mediaId)[start := Dropped])
      && (fate.Dropped? ==> w.history == v.history && w.stats == v.stats)
      && (fate.Sent? ==> CountersOf(w.stats, lost.mediaId).droppedUnits == CountersOf(v.stats, lost.mediaId).droppedUnits + 1)
      && (fate.Sent? ==> FatesOf(w.history, lost.mediaId) == FatesOf(v.history, lost.mediaId)[start := Dropped])
  {
    var noted := v.(activeTracks := v.activeTracks + {lost.mediaId});
    var fates := FatesOf(v.history, lost.mediaId);
    StartIsClosest(fates, lost.seqNo, start);
    assert FateIsTrue(v, lost.mediaId, start);
    match fates[start]
    case Queued(id) =>
      DropShrinks(noted, id);
      DropLeaves(noted, id);
    case Sent =>
      assert fates[start := Dropped].Keys == fates.Keys;
      assert |fates[start := Dropped].Keys| == |fates.Keys|;
    case Dropped =>
  }

  /** A loss that no start remembered is at or below, or that was a start not remembered, goes down as
      a dropped unit that begins there. A start remembered is not lost. */
  lemma LossIsNoted(v: Video, lost: Lost)
    requires var fates := FatesOf(v.history, lost.mediaId);
      if lost.first then lost.seqNo !in fates else forall s :: s in fates ==> lost.seqNo < s
    ensures var w, fates := Lose(v, lost), FatesOf(v.history, lost.mediaId);
      && w.units == v.units
      && FatesOf(w.history, lost.mediaId) == Newest(fates[lost.seqNo := Dropped])
      && CountersOf(w.stats, lost.mediaId).droppedUnits == CountersOf(v.stats, lost.mediaId).droppedUnits + 1
  {
    StartIsClosest(FatesOf(v.history, lost.mediaId), lost.seqNo, lost.seqNo);
  }

  lemma KnownStartIsNotLost(v: Video, lost: Lost)
    requires lost.first && lost.seqNo in FatesOf(v.history, lost.mediaId)
    ensures Lose(v, lost).units == v.units && Lose(v, lost).history == v.history && Lose(v, lost).stats == v.stats
  {
  }

  // ---- Whole runs ------------------------------------------------------------------------

  /** The part of a unit that stays as it was made. */
  ghost predicate SameUnit(a: VideoUnit, b: VideoUnit) {
    a.id == b.id && a.mediaId == b.mediaId && a.firstSeq == b.firstSeq && a.stray == b.stray && a.arrived == b.arrived
  }

  ghost predicate SameUnits(before: map<int, VideoUnit>, after: map<int, VideoUnit>) {
    forall id :: id in before && id in after ==> SameUnit(before[id], after[id])
  }

  lemma LeftAreSame(before: map<int, VideoUnit>, after: map<int, VideoUnit>)
    requires Left(before, after)
    ensures SameUnits(before, after)
  {
    forall id | id in before && id in after ensures SameUnit(before[id], after[id]) {
      assert SameUnit(before[id], before[id].(copy := false)) && SameUnit(after[id], after[id].(copy := false));
    }
  }

  lemma StepKeepsUnits(v: Video, op: Op)
    requires Inv(v)
    ensures SameUnits(v.units, Apply(v, op).units)
  {
    match op
    case PushOp(p, now) =>
      var noted := v.(activeTracks := v.activeTracks + {p.mediaId});
      var fates := FatesOf(v.history, p.mediaId);
      var start := UnitStart(fates, p.seqNo);
      if !p.first && start.Some? && fates[start.value].Queued? {
        DropLeaves(noted, fates[start.value].id);
        LeftAreSame(v.units, Drop(noted, fates[start.value].id).units);
      }
    case LoseOp(lost) =>
      LoseLeaves(v, lost);
      LeftAreSame(v.units, Lose(v, lost).units);
    case EnforceOp(now) =>
      BudgetDropsWholeUnits(v, now);
      LeftAreSame(v.units, EnforceBudget(v, now).units);
    case _ =>
  }

  lemma {:induction false} RunsKeepUnits(v: Video, ops: seq<Op>, id: int)
    requires Inv(v) && id in v.units && id in Run(v, ops).units
    ensures SameUnit(v.units[id], Run(v, ops).units[id])
    decreases |ops|
  {
    if ops != [] {
      var w := Apply(v, ops[0]);
      ApplyKeepsInv(v, ops[0]);
      StepKeepsUnits(v, ops[0]);
      if id !in w.units {
        StepInOrder(v, ops[0], id);
        UnitsFlowInOrder(w, ops[1..], id);
      } else {
        RunsKeepUnits(w, ops[1..], id);
      }
    }
  }

  /** The state in which operation `k` of a run finds the queue. */
  function Before(ops: seq<Op>, k: nat): Video
    requires k <= |ops|
  {
    Run(EMPTY, ops[..k])
  }

  lemma {:induction false} RunsJoin(v: Video, first: seq<Op>, second: seq<Op>)
    ensures Run(v, first + second) == Run(Run(v, first), second)
    ensures Effects(v, first + second) == Effects(v, first) + Effects(Run(v, first), second)
    ensures |Effects(v, first)| == |first|
    decreases |first|
  {
    hide Apply, EffectOf;
    if first == [] {
      assert first + second == second;
    } else {
      assert (first + second)[1..] == first[1..] + second;
      RunsJoin(Apply(v, first[0]), first[1..], second);
    }
  }

  lemma OneStep(ops: seq<Op>, k: nat)
    requires k < |ops|
    ensures Before(ops, k + 1) == Apply(Before(ops, k), ops[k])
    ensures |Effects(EMPTY, ops)| == |ops| && Effects(EMPTY, ops)[k] == EffectOf(Before(ops, k), ops[k])
    ensures Inv(Before(ops, k))
  {
    hide Apply, EffectOf, Inv;
    assert ops == ops[..k] + ops[k..] && ops[..k + 1] == ops[..k] + [ops[k]];
    RunsJoin(EMPTY, ops[..k], [ops[k]]);
    RunsJoin(EMPTY, ops[..k], ops[k..]);
    RunsJoin(EMPTY, ops, []);
    NothingYet();
    RunsKeepInv(EMPTY, ops[..k]);
    assert [ops[k]][1..] == [] && ops[k..][0] == ops[k];
    assert Effects(EMPTY, ops)[k] == Effects(Before(ops, k), ops[k..])[0];
  }

  lemma NothingYet()
    ensures Inv(EMPTY)
  {
  }

  lemma SameUntil(ops: seq<Op>, i: nat, j: nat, id: int)
    requires i <= j <= |ops| && Inv(Before(ops, i)) && id in Before(ops, i).units && id in Before(ops, j).units
    ensures SameUnit(Before(ops, i).units[id], Before(ops, j).units[id])
  {
    hide Inv, SameUnit;
    assert ops[..j] == ops[..i] + ops[i..j];
    RunsJoin(EMPTY, ops[..i], ops[i..j]);
    RunsKeepUnits(Before(ops, i), ops[i..j], id);
  }

  /** A unit comes with a push, whose number is its first. */
  lemma UnitsComeWith(v: Video, op: Op, id: int)
    requires Inv(v) && id !in v.units && id in Apply(v, op).units
    ensures op.PushOp?
    ensures var u := Apply(v, op).units[id];
      u.mediaId == op.packet.mediaId && u.firstSeq == op.packet.seqNo && u.stray == !op.packet.first && u.packets == [op.packet.bytes]
  {
    match op
    case PushOp(p, now) =>
      var noted := v.(activeTracks := v.activeTracks + {p.mediaId});
      var fates := FatesOf(v.history, p.mediaId);
      var start := UnitStart(fates, p.seqNo);
      if !p.first && start.Some? && fates[start.value].Queued? {
        DropLeaves(noted, fates[start.value].id);
      }
    case LoseOp(lost) => LoseLeaves(v, lost);
    case EnforceOp(now) => BudgetDropsWholeUnits(v, now);
    case _ =>
  }

  lemma TakesItsOwn(v: Video, op: Op, id: int)
    requires Inv(v) && id in v.units && EffectOf(v, op).Took? && EffectOf(v, op).id == id
    ensures op.PushOp? && !op.packet.first
    ensures var u, p := v.units[id], op.packet;
      && EffectOf(v, op) == Took(id, p.mediaId, p.seqNo, p.bytes)
      && !u.stray && u.mediaId == p.mediaId && IsClosest(FatesOf(v.history, p.mediaId), p.seqNo, u.firstSeq)
  {
    var p := op.packet;
    var fates := FatesOf(v.history, p.mediaId);
    var start := UnitStart(fates, p.seqNo);
    if !p.first {
      StartIsClosest(fates, p.seqNo, start.value);
      assert FateIsTrue(v, p.mediaId, start.value);
    }
  }

  /** In any run, let a unit come with operation `i` and take another packet in operation `j`. Then it
      came with a first fragment, and the packet is of its track, numbered after that one and before
      every later start remembered by then. */
  lemma UnitsTakeTheirOwn(ops: seq<Op>, i: nat, j: nat, id: int)
    requires i < j < |ops|
    requires id !in Before(ops, i).units && id in Before(ops, i + 1).units
    requires |Effects(EMPTY, ops)| == |ops| && Effects(EMPTY, ops)[j].Took? && Effects(EMPTY, ops)[j].id == id
    ensures ops[i].PushOp? && ops[j].PushOp?
    ensures var first, p := ops[i].packet, ops[j].packet;
      && Effects(EMPTY, ops)[j] == Took(id, p.mediaId, p.seqNo, p.bytes)
      && first.first && !p.first && p.mediaId == first.mediaId && first.seqNo <= p.seqNo
      && forall s :: s in FatesOf(Before(ops, j).history, p.mediaId) && first.seqNo < s ==> p.seqNo < s
  {
    hide Apply, EffectOf, Inv;
    OneStep(ops, i);
    OneStep(ops, i + 1);
    OneStep(ops, j);
    UnitsComeWith(Before(ops, i), ops[i], id);
    if id !in Before(ops, j).units {
      NeverAgain(ops, i + 1, j, id);
      assert false;
    }
    SameUntil(ops, i + 1, j, id);
    TakesItsOwn(Before(ops, j), ops[j], id);
  }

  /** What was queued and isn't any more takes nothing. */
  lemma NeverAgain(ops: seq<Op>, i: nat, j: nat, id: int)
    requires i <= j < |ops| && Inv(Before(ops, i)) && id in Before(ops, i).units && id !in Before(ops, j).units
    ensures !(EffectOf(Before(ops, j), ops[j]).Took? && EffectOf(Before(ops, j), ops[j]).id == id)
  {
    hide Apply, EffectOf;
    var v, effect := Before(ops, j), EffectOf(Before(ops, j), ops[j]);
    assert ops[..j] == ops[..i] + ops[i..j];
    RunsJoin(EMPTY, ops[..i], ops[i..j]);
    IdsRise(Before(ops, i), ops[i..j]);
    StepInOrder(v, ops[j], id);
    assert Gone(v, id);
    assert Taken([effect], id) == [];
  }

  lemma {:induction false} IdsRise(v: Video, ops: seq<Op>)
    requires Inv(v)
    ensures v.nextId <= Run(v, ops).nextId && Inv(Run(v, ops))
    decreases |ops|
  {
    hide Apply, Inv, EffectOf;
    if ops != [] {
      StepInOrder(v, ops[0], 0);
      ApplyKeepsInv(v, ops[0]);
      IdsRise(Apply(v, ops[0]), ops[1..]);
    }
  }

  /** From then on the unit that a lost fragment was of gives no packet, in any run. */
  lemma LostUnitsAreNotServed(v: Video, lost: Lost, start: Seq, ops: seq<Op>)
    requires Inv(v) && !lost.first && IsClosest(FatesOf(v.history, lost.mediaId), lost.seqNo, start)
    requires FatesOf(v.history, lost.mediaId)[start].Queued?
    ensures var id := FatesOf(v.history, lost.mediaId)[start].id;
      Given(Effects(Lose(v, lost), ops), id) == [] && id !in Run(Lose(v, lost), ops).units
  {
    hide Lose, EffectOf;
    var id := FatesOf(v.history, lost.mediaId)[start].id;
    LossTakesItsUnit(v, lost, start);
    StepInOrder(v, LoseOp(lost), id);
    LoseKeepsInv(v, lost);
    assert Apply(v, LoseOp(lost)) == Lose(v, lost);
    UnitsFlowInOrder(Lose(v, lost), ops, id);
  }
}
