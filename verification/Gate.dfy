/** The gate that bounds connections being served at once: per source, per network and in all. */
module GateModel {
  import opened Collections

  /** A source address: IPv4, or the upper half of IPv6. */
  datatype Source = V4(address: nat) | V6(prefix: nat) {
    /** The group of sources a second cap is for, an IPv4 /24 or IPv6 /48 in the code. */
    function Network(): Source {
      match this
      case V4(a) => V4(a - a % 0x100)
      case V6(p) => V6(p - p % 0x1_0000)
    }
  }

  datatype Caps = Caps(perSource: nat, perNetwork: nat, total: nat)

  datatype Counts = Counts(total: nat, sources: map<Source, nat>, networks: map<Source, nat>)

  const NOBODY: Counts := Counts(0, map[], map[])

  function CountOf(counts: map<Source, nat>, key: Source): nat {
    if key in counts then counts[key] else 0
  }

  predicate IsFull(caps: Caps, counts: Counts, source: Source) {
    || counts.total >= caps.total
    || CountOf(counts.sources, source) >= caps.perSource
    || CountOf(counts.networks, source.Network()) >= caps.perNetwork
  }

  function Increment(counts: map<Source, nat>, key: Source): map<Source, nat> {
    counts[key := CountOf(counts, key) + 1]
  }

  function Decrement(counts: map<Source, nat>, key: Source): map<Source, nat> {
    if key !in counts then counts
    else if counts[key] <= 1 then counts - {key}
    else counts[key := counts[key] - 1]
  }

  function Admit(counts: Counts, source: Source): Counts {
    Counts(counts.total + 1, Increment(counts.sources, source), Increment(counts.networks, source.Network()))
  }

  function Release(counts: Counts, source: Source): Counts
    requires counts.total > 0
  {
    Counts(counts.total - 1, Decrement(counts.sources, source), Decrement(counts.networks, source.Network()))
  }

  // ---- Passes and waiters --------------------------------------------------------------

  /** Where someone waiting to enter is in their loop: about to listen, listening and about to
      try, or asleep until told that a place was freed. */
  datatype Waiter =
    | Ready(source: Source)
    | Listening(source: Source, told: bool)
    | Asleep(source: Source)

  /** `unannounced` leavers have freed their place, and haven't told the waiters yet. */
  datatype Gate = Gate(counts: Counts, passes: map<int, Source>, waiters: map<int, Waiter>, unannounced: nat)

  const EMPTY: Gate := Gate(NOBODY, map[], map[], 0)

  datatype Move =
    | TryEnter(pass: int, source: Source)     // someone who doesn't wait
    | Arrive(waiter: int, source: Source)
    | Listen(waiter: int)
    | Attempt(waiter: int, pass: int)
    | GiveUp(waiter: int)
    | Leave(pass: int)
    | Announce

  predicate Enabled(g: Gate, move: Move) {
    match move
    case TryEnter(p, _) => p !in g.passes
    case Arrive(w, _) => w !in g.waiters
    case Listen(w) => w in g.waiters && g.waiters[w].Ready?
    case Attempt(w, p) => w in g.waiters && g.waiters[w].Listening? && p !in g.passes
    case GiveUp(w) => w in g.waiters
    case Leave(p) => p in g.passes && g.counts.total > 0
    case Announce => g.unannounced > 0
  }

  function Enter(g: Gate, pass: int, source: Source): Gate {
    g.(counts := Admit(g.counts, source), passes := g.passes[pass := source])
  }

  /** Whoever listens or sleeps is told. */
  function Woken(waiters: map<int, Waiter>): map<int, Waiter> {
    map w | w in waiters ::
      match waiters[w]
      case Ready(s) => Ready(s)
      case Listening(s, _) => Listening(s, true)
      case Asleep(s) => Ready(s)
  }

  function Next(caps: Caps, g: Gate, move: Move): Gate
    requires Enabled(g, move)
  {
    match move
    case TryEnter(p, source) => if IsFull(caps, g.counts, source) then g else Enter(g, p, source)
    case Arrive(w, source) => g.(waiters := g.waiters[w := Ready(source)])
    case Listen(w) => g.(waiters := g.waiters[w := Listening(g.waiters[w].source, false)])
    case Attempt(w, p) =>
      var waiter := g.waiters[w];
      if !IsFull(caps, g.counts, waiter.source) then Enter(g, p, waiter.source).(waiters := g.waiters - {w})
      else g.(waiters := g.waiters[w := if waiter.told then Ready(waiter.source) else Asleep(waiter.source)])
    case GiveUp(w) => g.(waiters := g.waiters - {w})
    case Leave(p) => g.(counts := Release(g.counts, g.passes[p]), passes := g.passes - {p}, unannounced := g.unannounced + 1)
    case Announce => g.(waiters := Woken(g.waiters), unannounced := g.unannounced - 1)
  }

  // ---- What is kept --------------------------------------------------------------------

  function Networks(passes: map<int, Source>): map<int, Source> {
    map p | p in passes :: passes[p].Network()
  }

  /** Counts that are those of the live passes, with no entry for nobody. */
  ghost predicate Counted(counts: map<Source, nat>, passes: map<int, Source>) {
    forall s :: CountIs(counts, passes, s)
  }

  ghost predicate CountIs(counts: map<Source, nat>, passes: map<int, Source>, s: Source) {
    CountOf(counts, s) == |Having(passes, s)| && (s in counts ==> counts[s] > 0)
  }

  ghost predicate WithinCap(counts: map<Source, nat>, cap: nat) {
    forall s :: s in counts ==> counts[s] <= cap
  }

  /** A sleeper that could be admitted is about to be woken. */
  ghost predicate NoLostWakeup(caps: Caps, g: Gate) {
    forall w :: w in g.waiters && g.waiters[w].Asleep? ==> IsFull(caps, g.counts, g.waiters[w].source) || g.unannounced > 0
  }

  ghost predicate GateInv(caps: Caps, g: Gate) {
    && g.counts.total == |g.passes| <= caps.total
    && Counted(g.counts.sources, g.passes) && WithinCap(g.counts.sources, caps.perSource)
    && Counted(g.counts.networks, Networks(g.passes)) && WithinCap(g.counts.networks, caps.perNetwork)
    && NoLostWakeup(caps, g)
  }

  lemma IncrementCounts(counts: map<Source, nat>, passes: map<int, Source>, p: int, key: Source)
    requires Counted(counts, passes) && p !in passes
    ensures Counted(Increment(counts, key), passes[p := key])
  {
    var after, held := Increment(counts, key), passes[p := key];
    forall s ensures CountIs(after, held, s) {
      assert CountIs(counts, passes, s);
      HavingWith(passes, p, key, s);
    }
  }

  lemma DecrementCounts(counts: map<Source, nat>, passes: map<int, Source>, p: int)
    requires Counted(counts, passes) && p in passes
    ensures Counted(Decrement(counts, passes[p]), passes - {p})
  {
    var after, held := Decrement(counts, passes[p]), passes - {p};
    forall s ensures CountIs(after, held, s) {
      assert CountIs(counts, passes, s);
      HavingWithout(passes, p, s);
    }
  }

  lemma NetworksWith(passes: map<int, Source>, p: int, source: Source)
    ensures Networks(passes[p := source]) == Networks(passes)[p := source.Network()]
    ensures Networks(passes - {p}) == Networks(passes) - {p}
  {
    SameMap(Networks(passes[p := source]), Networks(passes)[p := source.Network()]);
    SameMap(Networks(passes - {p}), Networks(passes) - {p});
  }

  lemma EnterKeeps(caps: Caps, g: Gate, p: int, source: Source)
    requires GateInv(caps, g) && p !in g.passes && !IsFull(caps, g.counts, source)
    ensures GateInv(caps, Enter(g, p, source))
  {
    hide Counted, IsFull, WithinCap, Increment, NoLostWakeup, CountOf;
    IncrementCounts(g.counts.sources, g.passes, p, source);
    NetworksWith(g.passes, p, source);
    IncrementCounts(g.counts.networks, Networks(g.passes), p, source.Network());
    assert g.passes[p := source].Keys == g.passes.Keys + {p};
    RoomForOne(caps, g.counts, source);
    AdmitCaps(caps, g.counts, source);
    EnterLosesNoWakeup(caps, g, p, source);
  }

  lemma EnterLosesNoWakeup(caps: Caps, g: Gate, p: int, source: Source)
    requires NoLostWakeup(caps, g)
    ensures NoLostWakeup(caps, Enter(g, p, source))
  {
    hide IsFull, Admit;
    StillFull(caps, g.counts, source);
  }

  lemma RoomForOne(caps: Caps, counts: Counts, source: Source)
    requires !IsFull(caps, counts, source)
    ensures counts.total < caps.total
  {
  }

  lemma AdmitCaps(caps: Caps, counts: Counts, source: Source)
    requires WithinCap(counts.sources, caps.perSource) && WithinCap(counts.networks, caps.perNetwork) && !IsFull(caps, counts, source)
    ensures WithinCap(Admit(counts, source).sources, caps.perSource) && WithinCap(Admit(counts, source).networks, caps.perNetwork)
  {
  }

  /** Admitting anyone makes room for nobody. */
  lemma StillFull(caps: Caps, counts: Counts, source: Source)
    ensures forall s :: IsFull(caps, counts, s) ==> IsFull(caps, Admit(counts, source), s)
  {
  }

  lemma LeaveKeeps(caps: Caps, g: Gate, p: int)
    requires GateInv(caps, g) && p in g.passes
    ensures g.counts.total > 0 && GateInv(caps, Next(caps, g, Leave(p)))
  {
    assert (g.passes - {p}).Keys == g.passes.Keys - {p};
    assert |g.passes - {p}| == |g.passes| - 1;
    DecrementCounts(g.counts.sources, g.passes, p);
    NetworksWith(g.passes, p, g.passes[p]);
    DecrementCounts(g.counts.networks, Networks(g.passes), p);
  }

  lemma NextKeeps(caps: Caps, g: Gate, move: Move)
    requires GateInv(caps, g) && Enabled(g, move)
    ensures GateInv(caps, Next(caps, g, move))
  {
    hide Counted, Admit, Release;
    match move
    case TryEnter(p, source) =>
      if !IsFull(caps, g.counts, source) {
        EnterKeeps(caps, g, p, source);
      }
    case Attempt(w, p) =>
      if !IsFull(caps, g.counts, g.waiters[w].source) {
        EnterKeeps(caps, g, p, g.waiters[w].source);
      }
    case Leave(p) => LeaveKeeps(caps, g, p);
    case _ =>
  }

  predicate CanRun(caps: Caps, g: Gate, moves: seq<Move>)
    decreases |moves|
  {
    moves != [] ==> Enabled(g, moves[0]) && CanRun(caps, Next(caps, g, moves[0]), moves[1..])
  }

  function Run(caps: Caps, g: Gate, moves: seq<Move>): Gate
    requires CanRun(caps, g, moves)
    decreases |moves|
  {
    if moves == [] then g else Run(caps, Next(caps, g, moves[0]), moves[1..])
  }

  /** However entering, waiting and leaving interleave: the counts are those of the live passes,
      no cap is passed, no entry is left for nobody, and nobody sleeps through a free place. */
  lemma {:induction false} RunsKeepGate(caps: Caps, g: Gate, moves: seq<Move>)
    requires GateInv(caps, g) && CanRun(caps, g, moves)
    ensures GateInv(caps, Run(caps, g, moves))
    decreases |moves|
  {
    hide GateInv, Enabled, Next;
    if moves != [] {
      NextKeeps(caps, g, moves[0]);
      RunsKeepGate(caps, Next(caps, g, moves[0]), moves[1..]);
    }
  }

  lemma EmptyKeeps(caps: Caps)
    ensures GateInv(caps, EMPTY)
  {
    forall s ensures CountIs(map[], map[], s) {
      NoneHaving(map[], s);
    }
    assert Networks(map[]) == map[];
  }

  /** Once every leave has been announced, whoever sleeps would still be refused. */
  lemma SleepersWouldBeRefused(caps: Caps, moves: seq<Move>, w: int)
    requires CanRun(caps, EMPTY, moves)
    requires var g := Run(caps, EMPTY, moves); g.unannounced == 0 && w in g.waiters && g.waiters[w].Asleep?
    ensures var g := Run(caps, EMPTY, moves);
      var source := g.waiters[w].source;
      || |g.passes| >= caps.total
      || |Held(g, s => s == source)| >= caps.perSource
      || |Held(g, s => SameNetwork(s, source))| >= caps.perNetwork
  {
    EmptyKeeps(caps);
    RunsKeepGate(caps, EMPTY, moves);
    FullExactly(caps, Run(caps, EMPTY, moves), Run(caps, EMPTY, moves).waiters[w].source);
  }

  // ---- Who is admitted -----------------------------------------------------------------

  /** Of one IPv4 /24, or of one IPv6 /48. */
  ghost predicate SameNetwork(a: Source, b: Source) {
    || (a.V4? && b.V4? && a.address / 256 == b.address / 256)
    || (a.V6? && b.V6? && a.prefix / 65_536 == b.prefix / 65_536)
  }

  lemma NetworksAre(a: Source, b: Source)
    ensures a.Network() == b.Network() <==> SameNetwork(a, b)
  {
  }

  /** The places held by sources that `which` picks. */
  ghost function Held(g: Gate, which: Source -> bool): set<int> {
    set p | p in g.passes && which(g.passes[p])
  }

  lemma FullExactly(caps: Caps, g: Gate, source: Source)
    requires GateInv(caps, g)
    ensures IsFull(caps, g.counts, source) <==>
      || |g.passes| >= caps.total
      || |Held(g, s => s == source)| >= caps.perSource
      || |Held(g, s => SameNetwork(s, source))| >= caps.perNetwork
  {
    assert CountIs(g.counts.sources, g.passes, source) && CountIs(g.counts.networks, Networks(g.passes), source.Network());
    SameSet(Having(g.passes, source), Held(g, s => s == source));
    forall p ensures p in Having(Networks(g.passes), source.Network()) <==> p in Held(g, s => SameNetwork(s, source)) {
      if p in g.passes {
        NetworksAre(g.passes[p], source);
      }
    }
    SameSet(Having(Networks(g.passes), source.Network()), Held(g, s => SameNetwork(s, source)));
  }

  /** In any run, whoever tries is admitted exactly while fewer places are held than may be, in all, by
      their source, and by their network. */
  lemma AdmittedExactly(caps: Caps, moves: seq<Move>, pass: int, source: Source)
    requires CanRun(caps, EMPTY, moves) && pass !in Run(caps, EMPTY, moves).passes
    ensures var g := Run(caps, EMPTY, moves);
      pass in Next(caps, g, TryEnter(pass, source)).passes <==>
        && |g.passes| < caps.total
        && |Held(g, s => s == source)| < caps.perSource
        && |Held(g, s => SameNetwork(s, source))| < caps.perNetwork
  {
    hide IsFull;
    EmptyKeeps(caps);
    RunsKeepGate(caps, EMPTY, moves);
    FullExactly(caps, Run(caps, EMPTY, moves), source);
  }

  /** So is someone who waits, once they try; and who is refused sleeps on only if no place was freed
      since they began to listen. */
  lemma WaiterAdmittedExactly(caps: Caps, moves: seq<Move>, waiter: int, pass: int)
    requires CanRun(caps, EMPTY, moves)
    requires var g := Run(caps, EMPTY, moves); waiter in g.waiters && g.waiters[waiter].Listening? && pass !in g.passes
    ensures var g := Run(caps, EMPTY, moves);
      var source := g.waiters[waiter].source;
      var t := Next(caps, g, Attempt(waiter, pass));
      && (pass in t.passes <==> |g.passes| < caps.total && |Held(g, s => s == source)| < caps.perSource
                                && |Held(g, s => SameNetwork(s, source))| < caps.perNetwork)
      && (pass in t.passes ==> t.passes[pass] == source && waiter !in t.waiters)
      && (pass !in t.passes ==> t.waiters[waiter] == if g.waiters[waiter].told then Ready(source) else Asleep(source))
  {
    hide IsFull, Admit;
    EmptyKeeps(caps);
    RunsKeepGate(caps, EMPTY, moves);
    FullExactly(caps, Run(caps, EMPTY, moves), Run(caps, EMPTY, moves).waiters[waiter].source);
  }
}

/** The gate itself. */
module Gates {
  import opened Collections
  import opened GateModel

  class Gate {
    const caps: Caps
    var total: nat
    var sources: map<Source, nat>
    var networks: map<Source, nat>

    ghost function View(): Counts
      reads this
    {
      Counts(total, sources, networks)
    }

    constructor (caps: Caps)
      ensures View() == NOBODY && this.caps == caps
    {
      this.caps, total, sources, networks := caps, 0, map[], map[];
    }

    /** A place is given just while all three counts are below their caps. */
    method TryEnter(source: Source) returns (admitted: bool)
      modifies this
      ensures admitted == !IsFull(caps, old(View()), source)
      ensures View() == if admitted then Admit(old(View()), source) else old(View())
    {
      var network := source.Network();
      var full := total >= caps.total || CountOf(sources, source) >= caps.perSource || CountOf(networks, network) >= caps.perNetwork;
      if full {
        return false;
      }
      total := total + 1;
      sources := sources[source := CountOf(sources, source) + 1];
      networks := networks[network := CountOf(networks, network) + 1];
      admitted := true;
    }

    /** Frees the place of a pass of `source`. */
    method Leave(source: Source)
      requires total > 0
      modifies this
      ensures View() == Release(old(View()), source)
    {
      total := total - 1;
      sources := DecrementCount(sources, source);
      networks := DecrementCount(networks, source.Network());
    }
  }

  method DecrementCount(counts: map<Source, nat>, key: Source) returns (left: map<Source, nat>)
    ensures left == Decrement(counts, key)
  {
    left := counts;
    if key in left {
      if left[key] > 0 {
        left := left[key := left[key] - 1];
      }
      if left[key] == 0 {
        left := left - {key};
        assert left == counts - {key};
      }
    }
  }
}
