/** Units put back in order at a receiver, which waits a little for a missing one. */
module ReorderModel {
  import opened Collections

  type Seq = int
  /** Nanoseconds. */
  type Time = int

  const REORDER_WINDOW: Time := 50_000_000
  const MAX_WAITING: nat := 256
  const U32_MAX: int := 0xFFFF_FFFF

  /** A whole unit: the sequence numbers from its first packet to its last. */
  datatype Unit = Unit(first: Seq, last: Seq, payload: int)

  datatype Output =
    | Emitted(unit: Unit)
    | Abandoned(from: Seq)
    | Late

  datatype Buffer = Buffer(next: Option<Seq>, waiting: map<Seq, Unit>, gapSince: Option<Time>)

  const NOTHING: Buffer := Buffer(None, map[], None)

  // ---- What pushing and polling do -----------------------------------------------------

  function NextAfter(unit: Unit): Option<Seq> {
    if unit.last < U32_MAX then Some(unit.last + 1) else None
  }

  function Start(b: Buffer, first: Seq): Seq {
    if b.next.Some? then b.next.value else first
  }

  function Since(b: Buffer, now: Time): Time {
    if b.gapSince.Some? then b.gapSince.value else now
  }

  /** Takes out the first waiting unit. */
  function Emit(b: Buffer): Buffer
    requires b.waiting != map[]
  {
    var first := Min(b.waiting.Keys);
    Buffer(NextAfter(b.waiting[first]), b.waiting - {first}, None)
  }

  function Poll(b: Buffer, now: Time): (Buffer, seq<Output>)
    decreases |b.waiting|
  {
    if b.waiting == map[] then (b, []) else
    var first := Min(b.waiting.Keys);
    Smaller(b.waiting, first);
    if first > Start(b, first) && now < Since(b, now) + REORDER_WINDOW then (b.(gapSince := Some(Since(b, now))), [])
    else
      var (rest, out) := Poll(Emit(b), now);
      (rest, (if first > Start(b, first) then [Abandoned(Start(b, first))] else []) + [Emitted(b.waiting[first])] + out)
  }

  /** Room for one more: past the cap the first waiting unit is given up. */
  function MakeRoom(waiting: map<Seq, Unit>): map<Seq, Unit> {
    if |waiting| >= MAX_WAITING && waiting != map[] then waiting - {Min(waiting.Keys)} else waiting
  }

  function Take(b: Buffer, unit: Unit): Buffer {
    b.(next := Some(Start(b, unit.first)), waiting := MakeRoom(b.waiting)[unit.first := unit])
  }

  predicate IsLate(b: Buffer, unit: Unit) {
    b.next.Some? && unit.last < b.next.value
  }

  function Push(b: Buffer, unit: Unit, now: Time): (Buffer, seq<Output>) {
    if IsLate(b, unit) then (b, [Late]) else Poll(Take(b, unit), now)
  }

  // ---- Runs ----------------------------------------------------------------------------

  datatype Op = Pushed(unit: Unit, now: Time) | Polled(now: Time)

  function Apply(b: Buffer, op: Op): (Buffer, seq<Output>) {
    match op
    case Pushed(unit, now) => Push(b, unit, now)
    case Polled(now) => Poll(b, now)
  }

  function Run(b: Buffer, ops: seq<Op>): Buffer
    decreases |ops|
  {
    if ops == [] then b else Run(Apply(b, ops[0]).0, ops[1..])
  }

  function Outputs(b: Buffer, ops: seq<Op>): seq<Output>
    decreases |ops|
  {
    if ops == [] then [] else Apply(b, ops[0]).1 + Outputs(Apply(b, ops[0]).0, ops[1..])
  }

  /** Outputs that, gaps included, run from one sequence number up to another without leaving
      any out or giving any twice. An abandoned gap ends where the next unit starts. */
  ghost predicate Tiles(out: seq<Output>, low: Seq, high: Seq)
    decreases |out|
  {
    if out == [] then low == high else
    match out[0]
    case Late => Tiles(out[1..], low, high)
    case Emitted(unit) => unit.first == low && low <= unit.last && Tiles(out[1..], unit.last + 1, high)
    case Abandoned(from) =>
      from == low && |out| > 1 && out[1].Emitted? && low < out[1].unit.first && Tiles(out[1..], out[1].unit.first, high)
  }

  lemma {:induction false} TilesJoin(a: seq<Output>, b: seq<Output>, low: Seq, middle: Seq, high: Seq)
    requires Tiles(a, low, middle) && Tiles(b, middle, high)
    ensures Tiles(a + b, low, high)
    decreases |a|
  {
    if a == [] {
      assert a + b == b;
    } else {
      assert (a + b)[1..] == a[1..] + b;
      match a[0]
      case Late => TilesJoin(a[1..], b, low, middle, high);
      case Emitted(unit) => TilesJoin(a[1..], b, unit.last + 1, middle, high);
      case Abandoned(from) => TilesJoin(a[1..], b, a[1].unit.first, middle, high);
    }
  }

  // ---- What is kept --------------------------------------------------------------------

  /** Between calls units wait only beyond a gap, and exactly then is a gap timed. */
  ghost predicate Resting(b: Buffer) {
    && (b.waiting != map[] <==> b.gapSince.Some?)
    && (b.waiting != map[] ==> b.next.Some?)
    && (forall s :: s in b.waiting ==> b.waiting[s].first == s && b.next.value < s)
  }

  ghost predicate Fits(unit: Unit) {
    0 <= unit.first <= unit.last < U32_MAX
  }

  predicate Apart(a: Unit, b: Unit) {
    a.last < b.first || b.last < a.first
  }

  ghost predicate WaitingFit(b: Buffer) {
    && (forall s :: s in b.waiting ==> Fits(b.waiting[s]) && b.waiting[s].first == s)
    && (forall s, t :: s in b.waiting && t in b.waiting && s != t ==> Apart(b.waiting[s], b.waiting[t]))
  }

  /** Every waiting unit starts at or after `next`. */
  ghost predicate InReach(b: Buffer) {
    b.waiting != map[] ==> b.next.Some? && forall s :: s in b.waiting ==> b.next.value <= s
  }

  /** What a poll that ends in `t` gives. */
  ghost predicate PolledWell(b: Buffer, t: Buffer, out: seq<Output>)
    requires b.next.Some?
  {
    && t.next.Some? && Tiles(out, b.next.value, t.next.value) && Resting(t)
    && (forall s :: s in t.waiting ==> s in b.waiting && t.waiting[s] == b.waiting[s])
    && (forall i :: 0 <= i < |out| && out[i].Emitted? ==> CameFrom(b, out[i].unit))
    && (t.next != b.next ==> exists u :: CameFrom(b, u) && t.next == Some(u.last + 1))
  }

  predicate CameFrom(b: Buffer, unit: Unit) {
    unit.first in b.waiting && b.waiting[unit.first] == unit
  }

  function Gap(b: Buffer): seq<Output>
    requires b.waiting != map[]
  {
    var first := Min(b.waiting.Keys);
    if first > Start(b, first) then [Abandoned(Start(b, first))] else []
  }

  predicate Waits(b: Buffer, now: Time)
    requires b.waiting != map[]
  {
    var first := Min(b.waiting.Keys);
    first > Start(b, first) && now < Since(b, now) + REORDER_WINDOW
  }

  function Front(b: Buffer): Unit
    requires b.waiting != map[]
  {
    b.waiting[Min(b.waiting.Keys)]
  }

  lemma PollStep(b: Buffer, now: Time)
    requires b.waiting != map[]
    ensures |Emit(b).waiting| < |b.waiting|
    ensures Poll(b, now) ==
      if Waits(b, now) then (b.(gapSince := Some(Since(b, now))), [])
      else (Poll(Emit(b), now).0, Gap(b) + [Emitted(Front(b))] + Poll(Emit(b), now).1)
  {
    Smaller(b.waiting, Min(b.waiting.Keys));
  }

  lemma FrontTiles(b: Buffer, rest: seq<Output>, high: Seq)
    requires WaitingFit(b) && InReach(b) && b.waiting != map[] && Tiles(rest, Front(b).last + 1, high)
    ensures Tiles(Gap(b) + [Emitted(Front(b))] + rest, b.next.value, high)
  {
    var unit := Front(b);
    var tail := [Emitted(unit)] + rest;
    assert tail[1..] == rest;
    assert Tiles(tail, unit.first, high);
    if Gap(b) != [] {
      var out := Gap(b) + [Emitted(unit)] + rest;
      assert out == [Abandoned(b.next.value)] + tail;
      assert out[1..] == tail;
    } else {
      assert Gap(b) + [Emitted(unit)] + rest == tail;
    }
  }

  lemma PolledNext(b: Buffer, t: Buffer, rest: seq<Output>)
    requires WaitingFit(b) && InReach(b) && b.waiting != map[]
    requires Emit(b).next.Some? && PolledWell(Emit(b), t, rest)
    ensures PolledWell(b, t, Gap(b) + [Emitted(Front(b))] + rest)
  {
    hide Tiles, Resting, InReach;
    FrontTiles(b, rest, t.next.value);
    var out := Gap(b) + [Emitted(Front(b))] + rest;
    assert CameFrom(b, Front(b));
    forall i | 0 <= i < |out| && out[i].Emitted? ensures CameFrom(b, out[i].unit) {
      if i > |Gap(b)| {
        assert out[i] == rest[i - |Gap(b)| - 1];
        assert CameFrom(Emit(b), out[i].unit);
      }
    }
    if t.next != Emit(b).next {
      var u :| CameFrom(Emit(b), u) && t.next == Some(u.last + 1);
      assert CameFrom(b, u);
    }
  }

  lemma EmitFits(b: Buffer)
    requires WaitingFit(b) && InReach(b) && b.waiting != map[]
    ensures WaitingFit(Emit(b)) && InReach(Emit(b)) && Emit(b).next == Some(Front(b).last + 1) && Emit(b).gapSince.None?
  {
    var first := Min(b.waiting.Keys);
    forall s | s in Emit(b).waiting ensures Front(b).last < s {
      assert Apart(b.waiting[first], b.waiting[s]);
    }
  }

  lemma {:induction false} PollTiles(b: Buffer, now: Time)
    requires WaitingFit(b) && InReach(b) && b.next.Some?
    requires b.waiting == map[] ==> b.gapSince.None?
    ensures PolledWell(b, Poll(b, now).0, Poll(b, now).1)
    decreases |b.waiting|
  {
    if b.waiting != map[] {
      hide Poll, Emit, Gap, Front;
      PollStep(b, now);
      if !Waits(b, now) {
        EmitFits(b);
        PollTiles(Emit(b), now);
        PolledNext(b, Poll(Emit(b), now).0, Poll(Emit(b), now).1);
      }
    }
  }

  // ---- Rest, and when it ends ----------------------------------------------------------

  /** Polling ends at rest, whatever units wait. */
  lemma {:induction false} PollRests(b: Buffer, now: Time)
    requires forall s :: s in b.waiting ==> b.waiting[s].first == s
    requires b.waiting == map[] ==> b.gapSince.None?
    ensures Resting(Poll(b, now).0)
    decreases |b.waiting|
  {
    if b.waiting != map[] {
      hide Poll;
      PollStep(b, now);
      if !Waits(b, now) {
        PollRests(Emit(b), now);
      }
    }
  }

  /** Between calls the buffer is at rest, over any run and whatever units overlap. */
  lemma {:induction false} RunsRest(b: Buffer, ops: seq<Op>)
    requires Resting(b)
    ensures Resting(Run(b, ops))
    decreases |ops|
  {
    hide Poll, Resting, Push;
    if ops != [] {
      OpRests(b, ops[0]);
      RunsRest(Apply(b, ops[0]).0, ops[1..]);
    }
  }

  lemma OpRests(b: Buffer, op: Op)
    requires Resting(b)
    ensures Resting(Apply(b, op).0)
  {
    hide Poll;
    match op
    case Pushed(unit, now) =>
      assert unit.first in Take(b, unit).waiting;
      PollRests(Take(b, unit), now);
    case Polled(now) => PollRests(b, now);
  }

  /** At rest, polling has nothing to do, and does nothing, exactly until the deadline of the gap. */
  lemma RestsUntil(b: Buffer, now: Time)
    requires Resting(b)
    ensures Poll(b, now).1 == [] <==> b.gapSince.None? || now < b.gapSince.value + 50_000_000
    ensures Poll(b, now).1 == [] ==> Poll(b, now).0 == b
  {
    hide Poll;
    if b.waiting == map[] {
      PollsNothing(b, now);
    } else {
      PollStep(b, now);
    }
  }

  lemma PollsNothing(b: Buffer, now: Time)
    requires b.waiting == map[]
    ensures Poll(b, now) == (b, [])
  {
  }

  // ---- Runs over units that don't overlap ----------------------------------------------

  /** Units that came before: each waits as it came, and the last one emitted ends right before
      `next`. */
  ghost predicate Knows(b: Buffer, before: set<Unit>) {
    && (forall u :: u in before ==> Fits(u))
    && (forall u, v :: u in before && v in before && u != v ==> Apart(u, v))
    && (forall s :: s in b.waiting ==> b.waiting[s] in before)
    && (b.next.Some? ==> exists u :: u in before && u.last + 1 == b.next.value)
    && (b.next.None? ==> before == {} && b.waiting == map[])
  }

  function Before(before: set<Unit>, op: Op): set<Unit> {
    if op.Pushed? then before + {op.unit} else before
  }

  /** The unit `op` pushes, if it does, overlaps none that came before. */
  ghost predicate IsNew(before: set<Unit>, op: Op) {
    op.Pushed? ==> Fits(op.unit) && op.unit !in before && forall u :: u in before ==> Apart(u, op.unit)
  }

  lemma TakeFits(b: Buffer, before: set<Unit>, unit: Unit)
    requires Resting(b) && Knows(b, before) && IsNew(before, Pushed(unit, 0)) && !IsLate(b, unit)
    ensures var t := Take(b, unit);
      && WaitingFit(t) && InReach(t) && t.next.Some? && t.waiting != map[]
      && (forall s :: s in t.waiting ==> t.waiting[s] in before + {unit})
  {
    var t := Take(b, unit);
    if b.next.Some? {
      var u :| u in before && u.last + 1 == b.next.value;
      assert Apart(u, unit);
    }
    assert unit.first in t.waiting;
    forall s | s in t.waiting ensures Fits(t.waiting[s]) && t.waiting[s].first == s && t.waiting[s] in before + {unit} && t.next.value <= s {
      if s != unit.first {
        assert s in b.waiting && b.waiting[s] in before;
      }
    }
    forall s, r | s in t.waiting && r in t.waiting && s != r ensures Apart(t.waiting[s], t.waiting[r]) {
      assert t.waiting[s].first == s && t.waiting[r].first == r;
    }
  }

  ghost predicate StepTiles(b: Buffer, before: set<Unit>, op: Op) {
    var (t, out) := Apply(b, op);
    && Resting(t) && Knows(t, Before(before, op))
    && (t.next.Some? ==> Tiles(out, if b.next.Some? then b.next.value else if op.Pushed? then op.unit.first else t.next.value, t.next.value))
    && (t.next.None? ==> out == [] && b.next.None?)
    && forall i :: 0 <= i < |out| && out[i].Emitted? ==> out[i].unit in Before(before, op)
  }

  lemma StepIsTiled(b: Buffer, before: set<Unit>, op: Op)
    requires Resting(b) && Knows(b, before) && IsNew(before, op)
    ensures StepTiles(b, before, op)
  {
    match op
    case Pushed(unit, now) =>
      if IsLate(b, unit) {
        LateIsTiled(b, before, op);
      } else {
        TakeFits(b, before, unit);
        PollIsTiled(Take(b, unit), before + {unit}, now, if b.next.Some? then b.next.value else unit.first);
      }
    case Polled(now) =>
      if b.next.Some? {
        PollIsTiled(b, before, now, b.next.value);
      }
  }

  lemma LateIsTiled(b: Buffer, before: set<Unit>, op: Op)
    requires Resting(b) && Knows(b, before) && IsNew(before, op) && op.Pushed? && IsLate(b, op.unit)
    ensures StepTiles(b, before, op)
  {
    assert [Late][1..] == [];
    var u :| u in before && u.last + 1 == b.next.value;
    assert u in Before(before, op);
  }

  lemma PollIsTiled(b: Buffer, before: set<Unit>, now: Time, low: Seq)
    requires WaitingFit(b) && InReach(b) && b.next == Some(low) && (b.waiting == map[] ==> b.gapSince.None?)
    requires forall s :: s in b.waiting ==> b.waiting[s] in before
    requires forall u :: u in before ==> Fits(u)
    requires forall u, v :: u in before && v in before && u != v ==> Apart(u, v)
    requires (exists u :: u in before && u.last + 1 == low) || (low in b.waiting)
    ensures var (t, out) := Poll(b, now);
      && Resting(t) && Knows(t, before) && Tiles(out, low, t.next.value)
      && forall i :: 0 <= i < |out| && out[i].Emitted? ==> out[i].unit in before
  {
    hide Poll, Tiles;
    PollTiles(b, now);
    var (t, out) := Poll(b, now);
    if t.next != b.next {
      var u :| CameFrom(b, u) && t.next == Some(u.last + 1);
      assert u in before;
    } else if low in b.waiting {
      assert Resting(t);
      EmitsFirst(b, now);
    }
  }

  /** A unit that is next in order is emitted at once. */
  lemma EmitsFirst(b: Buffer, now: Time)
    requires WaitingFit(b) && InReach(b) && b.next.Some? && b.next.value in b.waiting
    ensures Poll(b, now).0.next != b.next
  {
    assert Min(b.waiting.Keys) == b.next.value;
    EmitFits(b);
    PollTiles(Emit(b), now);
    PollStep(b, now);
    NextRises(Poll(Emit(b), now).1, Emit(b).next.value, Poll(Emit(b), now).0.next.value);
  }

  lemma {:induction false} NextRises(out: seq<Output>, low: Seq, high: Seq)
    requires Tiles(out, low, high)
    ensures low <= high
    decreases |out|
  {
    if out != [] {
      match out[0]
      case Late => NextRises(out[1..], low, high);
      case Emitted(unit) => NextRises(out[1..], unit.last + 1, high);
      case Abandoned(from) => NextRises(out[1..], out[1].unit.first, high);
    }
  }

  ghost predicate AllNew(before: set<Unit>, ops: seq<Op>)
    decreases |ops|
  {
    ops != [] ==> IsNew(before, ops[0]) && AllNew(Before(before, ops[0]), ops[1..])
  }

  /** Where the outputs start: at `next`, or else at the first unit to come. */
  function StartOf(b: Buffer, ops: seq<Op>): Seq
    decreases |ops|
  {
    if b.next.Some? then b.next.value
    else if ops == [] then 0
    else if ops[0].Pushed? then ops[0].unit.first
    else StartOf(b, ops[1..])
  }

  lemma {:induction false} RunTiles(b: Buffer, before: set<Unit>, ops: seq<Op>)
    requires Resting(b) && Knows(b, before) && AllNew(before, ops)
    ensures Resting(Run(b, ops))
    ensures Run(b, ops).next.Some? ==> Tiles(Outputs(b, ops), StartOf(b, ops), Run(b, ops).next.value)
    ensures Run(b, ops).next.None? ==> Outputs(b, ops) == [] && b.next.None?
    decreases |ops|
  {
    if ops != [] {
      var (t, out) := Apply(b, ops[0]);
      StepIsTiled(b, before, ops[0]);
      RunTiles(t, Before(before, ops[0]), ops[1..]);
      var rest := Outputs(t, ops[1..]);
      if t.next.Some? {
        TilesJoin(out, rest, StartOf(b, ops), t.next.value, Run(t, ops[1..]).next.value);
      } else {
        assert out + rest == rest;
        StillNothing(b, ops[0]);
      }
    }
  }

  lemma StillNothing(b: Buffer, op: Op)
    requires Apply(b, op).0.next.None? && b.next.None? && Resting(b) && b.waiting == map[] && Apply(b, op).1 == []
    requires op.Pushed? ==> Fits(op.unit)
    ensures op.Polled? && Apply(b, op).0 == b
  {
  }

  /** For units that don't overlap, pushed and polled in whatever order and however many must be
      given up for others: the emitted units ascend, and with the abandoned gaps they cover every
      sequence number, from the first unit's start up to `next`, exactly once. */
  lemma OutputsTile(ops: seq<Op>)
    requires AllNew({}, ops)
    ensures var b := Run(NOTHING, ops);
      && Resting(b)
      && (b.next.Some? ==> Tiles(Outputs(NOTHING, ops), StartOf(NOTHING, ops), b.next.value))
      && (b.next.None? ==> Outputs(NOTHING, ops) == [])
  {
    RunTiles(NOTHING, {}, ops);
  }

  /** Which means that of two units emitted, the earlier ends before the later starts. */
  lemma {:induction false} EmittedAscend(out: seq<Output>, low: Seq, high: Seq, i: nat, j: nat)
    requires Tiles(out, low, high) && i < j < |out| && out[i].Emitted? && out[j].Emitted?
    ensures low <= out[i].unit.first && out[i].unit.last < out[j].unit.first
    decreases |out|
  {
    var then' := match out[0]
      case Late => low
      case Emitted(unit) => unit.last + 1
      case Abandoned(_) => out[1].unit.first;
    if i > 0 {
      EmittedAscend(out[1..], then', high, i - 1, j - 1);
    } else {
      StartsAfter(out[1..], then', high, j - 1);
    }
  }

  lemma {:induction false} StartsAfter(out: seq<Output>, low: Seq, high: Seq, i: nat)
    requires Tiles(out, low, high) && i < |out| && out[i].Emitted?
    ensures low <= out[i].unit.first
    decreases |out|
  {
    if i > 0 {
      match out[0]
      case Late => StartsAfter(out[1..], low, high, i - 1);
      case Emitted(unit) => StartsAfter(out[1..], unit.last + 1, high, i - 1);
      case Abandoned(_) => StartsAfter(out[1..], out[1].unit.first, high, i - 1);
    }
  }

  // ---- What is kept, and how long it is waited for -------------------------------------

  lemma {:induction false} PollLosesNothing(b: Buffer, now: Time, u: Unit)
    requires CameFrom(b, u)
    ensures Emitted(u) in Poll(b, now).1 || CameFrom(Poll(b, now).0, u)
    decreases |b.waiting|
  {
    hide Poll;
    PollStep(b, now);
    if !Waits(b, now) && u != Front(b) {
      PollLosesNothing(Emit(b), now, u);
    }
  }

  /** Whether a push may take `u` out of the buffer unseen: another unit with its number comes, or there
      are 256 waiting and it is the first. */
  ghost predicate MakesWay(b: Buffer, u: Unit, unit: Unit) {
    u != unit && (u.first == unit.first || (|b.waiting| >= 256 && forall s :: s in b.waiting ==> u.first <= s))
  }

  /** A unit that ends before `next` is late, and changes nothing. Any other one is given out or waits,
      and so does each that waited, unless it has to make way. */
  lemma PushLosesNothing(b: Buffer, unit: Unit, now: Time, u: Unit)
    ensures b.next.Some? && unit.last < b.next.value ==> Push(b, unit, now) == (b, [Late])
    ensures !(b.next.Some? && unit.last < b.next.value) && (u == unit || CameFrom(b, u)) && !MakesWay(b, u, unit) ==>
      Emitted(u) in Push(b, unit, now).1 || CameFrom(Push(b, unit, now).0, u)
  {
    hide Poll;
    if !IsLate(b, unit) && (u == unit || CameFrom(b, u)) && !MakesWay(b, u, unit) {
      PollLosesNothing(Take(b, unit), now, u);
    }
  }

  ghost predicate NeverMakesWay(b: Buffer, ops: seq<Op>, u: Unit)
    decreases |ops|
  {
    ops != [] ==> (ops[0].Pushed? ==> !MakesWay(b, u, ops[0].unit)) && NeverMakesWay(Apply(b, ops[0]).0, ops[1..], u)
  }

  /** Along any run a waiting unit goes on waiting until it is given out, unless it has to make way. */
  lemma {:induction false} RunsLoseNothing(b: Buffer, ops: seq<Op>, u: Unit)
    requires CameFrom(b, u) && NeverMakesWay(b, ops, u)
    ensures Emitted(u) in Outputs(b, ops) || CameFrom(Run(b, ops), u)
    decreases |ops|
  {
    hide Poll, Push, MakesWay;
    if ops != [] {
      match ops[0] {
        case Pushed(unit, now) => PushLosesNothing(b, unit, now, u);
        case Polled(now) => PollLosesNothing(b, now, u);
      }
      if CameFrom(Apply(b, ops[0]).0, u) {
        RunsLoseNothing(Apply(b, ops[0]).0, ops[1..], u);
      }
    }
  }

  /** A gap is given up only once it was timed for 50 milliseconds, and only one by each poll. It is
      timed from when it is first met, and anew after a unit was given out. */
  lemma {:induction false} GapsAreWaitedFor(b: Buffer, now: Time, from: Seq)
    ensures var (t, out) := Poll(b, now);
      && (Abandoned(from) in out ==> b.gapSince.Some? && b.gapSince.value + 50_000_000 <= now && out[0] == Abandoned(from))
      && (t.gapSince.Some? && b.waiting != map[] ==> t.gapSince.value == if out == [] && b.gapSince.Some? then b.gapSince.value else now)
    decreases |b.waiting|
  {
    if b.waiting != map[] {
      hide Poll;
      PollStep(b, now);
      if !Waits(b, now) {
        GapsAreWaitedFor(Emit(b), now, from);
        if Emit(b).waiting == map[] {
          PollsNothing(Emit(b), now);
        }
      }
    }
  }
}

/** The reorder buffer itself. */
module Reordering {
  import opened Collections
  import opened ReorderModel

  class Reorder {
    var next: Option<Seq>
    var waiting: map<Seq, Unit>
    var gapSince: Option<Time>

    ghost function View(): Buffer
      reads this
    {
      Buffer(next, waiting, gapSince)
    }

    /** Between calls. */
    ghost predicate Valid()
      reads this
    {
      Resting(View())
    }

    constructor ()
      ensures Valid() && View() == NOTHING
    {
      next, waiting, gapSince := None, map[], None;
    }

    method Push(unit: Unit, now: Time) returns (out: seq<Output>)
      requires Valid()
      modifies this
      ensures (View(), out) == ReorderModel.Push(old(View()), unit, now)
      ensures Valid()
    {
      hide Resting;
      OpRests(View(), Pushed(unit, now));
      if next.Some? && unit.last < next.value {
        return [Late];
      }
      if next.None? {
        next := Some(unit.first);
      }
      if |waiting| >= MAX_WAITING {
        waiting := waiting - {Min(waiting.Keys)};
      }
      waiting := waiting[unit.first := unit];
      assert View() == Take(old(View()), unit);
      out := PollAll(now);
    }

    /** The moment from which polling gives something out, while none is given out before. */
    method Deadline() returns (at: Option<Time>)
      requires Valid()
      ensures forall now :: ReorderModel.Poll(View(), now).1 == [] <==> at.None? || now < at.value
    {
      hide ReorderModel.Poll, Resting;
      forall now ensures ReorderModel.Poll(View(), now).1 == [] <==> gapSince.None? || now < gapSince.value + REORDER_WINDOW {
        RestsUntil(View(), now);
      }
      at := if gapSince.Some? then Some(gapSince.value + REORDER_WINDOW) else None;
    }

    /** Continues the tiling from `next` as far as `now` allows, and leaves the buffer at rest. */
    method Poll(now: Time) returns (out: seq<Output>)
      requires Valid()
      modifies this
      ensures (View(), out) == ReorderModel.Poll(old(View()), now)
      ensures Valid()
    {
      hide ReorderModel.Poll, Resting;
      OpRests(View(), Polled(now));
      out := PollAll(now);
    }

    method PollAll(now: Time) returns (out: seq<Output>)
      modifies this
      ensures (View(), out) == ReorderModel.Poll(old(View()), now)
    {
      hide ReorderModel.Poll, Emit;
      out := [];
      ghost var start := View();
      assert [] + ReorderModel.Poll(start, now).1 == ReorderModel.Poll(start, now).1;
      while waiting != map[]
        invariant ReorderModel.Poll(start, now) == (ReorderModel.Poll(View(), now).0, out + ReorderModel.Poll(View(), now).1)
        decreases |waiting|
      {
        ghost var before, emitted := View(), out;
        PollStep(before, now);
        var first := Min(waiting.Keys);
        var at := if next.Some? then next.value else first;
        if first > at {
          if gapSince.None? {
            gapSince := Some(now);
          }
          if now < gapSince.value + REORDER_WINDOW {
            assert emitted + [] == emitted;
            return;
          }
          out := out + [Abandoned(at)];
        }
        var unit := EmitFirst();
        out := out + [Emitted(unit)];
        assert out == emitted + Gap(before) + [Emitted(Front(before))];
        assert out + ReorderModel.Poll(View(), now).1 == emitted + ReorderModel.Poll(before, now).1;
      }
      PollsNothing(View(), now);
      assert out + [] == out;
    }

    method EmitFirst() returns (unit: Unit)
      requires waiting != map[]
      modifies this
      ensures View() == Emit(old(View())) && unit == Front(old(View()))
    {
      var first := Min(waiting.Keys);
      unit := waiting[first];
      gapSince := None;
      next := NextAfter(unit);
      waiting := waiting - {first};
    }
  }
}
