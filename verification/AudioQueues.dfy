/**
 Audio on its way to one receiver, as round-robin over per-track queues with a bound on all of
 them together; when it is hit, a longest queue pays.
 */
module AudioModel {
  import opened Collections
  import opened VideoModel

  const MAX_QUEUED_AUDIO: nat := 3400

  datatype Audio = Audio(tracks: map<MediaId, seq<Bytes>>, turns: seq<MediaId>)

  const SILENT: Audio := Audio(map[], [])

  function Lengths(tracks: map<MediaId, seq<Bytes>>): map<int, nat> {
    map m | m in tracks :: |tracks[m]|
  }

  function Size(tracks: map<MediaId, seq<Bytes>>): nat {
    Total(Lengths(tracks))
  }

  function QueueOf(tracks: map<MediaId, seq<Bytes>>, mediaId: MediaId): seq<Bytes> {
    if mediaId in tracks then tracks[mediaId] else []
  }

  ghost predicate Distinct(turns: seq<MediaId>) {
    forall i, j :: 0 <= i < j < |turns| ==> turns[i] != turns[j]
  }

  /** Every track with packets is listed once in `turns`, and no other. */
  ghost predicate Fair(a: Audio) {
    && (forall m :: m in a.tracks ==> a.tracks[m] != [])
    && (forall m :: m in a.tracks <==> m in a.turns)
    && Distinct(a.turns)
  }

  function Enqueue(a: Audio, mediaId: MediaId, bytes: Bytes): Audio {
    Audio(a.tracks[mediaId := QueueOf(a.tracks, mediaId) + [bytes]],
          if QueueOf(a.tracks, mediaId) == [] then a.turns + [mediaId] else a.turns)
  }

  function Without(turns: seq<MediaId>, mediaId: MediaId): seq<MediaId> {
    if turns == [] then []
    else if turns[0] == mediaId then Without(turns[1..], mediaId)
    else [turns[0]] + Without(turns[1..], mediaId)
  }

  /** `mediaId` loses its oldest packet. */
  function Evict(a: Audio, mediaId: MediaId): Audio {
    if mediaId !in a.tracks || a.tracks[mediaId] == [] then a
    else if |a.tracks[mediaId]| == 1 then Audio(a.tracks - {mediaId}, Without(a.turns, mediaId))
    else a.(tracks := a.tracks[mediaId := a.tracks[mediaId][1..]])
  }

  function PopTurn(a: Audio): (Audio, Option<(MediaId, Bytes)>) {
    if a.turns == [] || QueueOf(a.tracks, a.turns[0]) == [] then (a, None) else
    var m := a.turns[0];
    var rest := a.tracks[m][1..];
    (if rest == [] then Audio(a.tracks - {m}, a.turns[1..])
     else Audio(a.tracks[m := rest], a.turns[1..] + [m]),
     Some((m, a.tracks[m][0])))
  }

  // ---- What the steps keep -------------------------------------------------------------

  lemma {:induction false} WithoutKeepsOthers(turns: seq<MediaId>, mediaId: MediaId)
    requires Distinct(turns)
    ensures forall m :: m in Without(turns, mediaId) <==> m in turns && m != mediaId
    ensures Distinct(Without(turns, mediaId))
  {
    if turns != [] {
      WithoutKeepsOthers(turns[1..], mediaId);
      assert forall m :: m in turns <==> m == turns[0] || m in turns[1..];
      assert turns[0] !in turns[1..];
    }
  }

  lemma SizeWith(tracks: map<MediaId, seq<Bytes>>, m: MediaId, queue: seq<Bytes>)
    ensures Size(tracks[m := queue]) == Size(tracks) - |QueueOf(tracks, m)| + |queue|
  {
    TotalWith(Lengths(tracks), m, |queue|);
    assert Lengths(tracks[m := queue]) == Lengths(tracks)[m := |queue|];
  }

  lemma SizeWithout(tracks: map<MediaId, seq<Bytes>>, m: MediaId)
    requires m in tracks
    ensures Size(tracks - {m}) == Size(tracks) - |tracks[m]|
  {
    TotalWithout(Lengths(tracks), m);
    assert Lengths(tracks - {m}) == Lengths(tracks) - {m};
  }

  lemma EnqueueIsFair(a: Audio, mediaId: MediaId, bytes: Bytes)
    requires Fair(a)
    ensures Fair(Enqueue(a, mediaId, bytes))
    ensures Size(Enqueue(a, mediaId, bytes).tracks) == Size(a.tracks) + 1
  {
    SizeWith(a.tracks, mediaId, QueueOf(a.tracks, mediaId) + [bytes]);
    assert forall m :: m in a.turns + [mediaId] <==> m in a.turns || m == mediaId;
  }

  lemma EvictIsFair(a: Audio, mediaId: MediaId)
    requires Fair(a) && mediaId in a.tracks
    ensures Fair(Evict(a, mediaId))
    ensures Size(Evict(a, mediaId).tracks) + 1 == Size(a.tracks)
  {
    WithoutKeepsOthers(a.turns, mediaId);
    SizeWithout(a.tracks, mediaId);
    SizeWith(a.tracks, mediaId, a.tracks[mediaId][1..]);
  }

  lemma TurnPasses(turns: seq<MediaId>)
    requires turns != [] && Distinct(turns)
    ensures Distinct(turns[1..]) && Distinct(turns[1..] + [turns[0]])
    ensures forall m :: m in turns[1..] <==> m in turns && m != turns[0]
    ensures forall m :: m in turns[1..] + [turns[0]] <==> m in turns
  {
    assert turns == [turns[0]] + turns[1..];
    assert turns[0] !in turns[1..];
  }

  lemma NobodyWaits(a: Audio)
    requires Fair(a) && a.turns == []
    ensures Size(a.tracks) == 0
  {
    forall m ensures m !in a.tracks {
      assert m in a.tracks ==> m in a.turns;
    }
    NoTracks(a.tracks);
  }

  lemma NoTracks(tracks: map<MediaId, seq<Bytes>>)
    requires forall m :: m !in tracks
    ensures Size(tracks) == 0
  {
    forall m ensures m !in Lengths(tracks) {
    }
    Empty(Lengths(tracks));
  }

  lemma PopSize(a: Audio)
    requires Fair(a)
    ensures PopTurn(a).1.None? <==> Size(a.tracks) == 0
    ensures PopTurn(a).1.None? ==> PopTurn(a).0 == a
    ensures PopTurn(a).1.Some? ==> Size(PopTurn(a).0.tracks) + 1 == Size(a.tracks)
  {
    if a.turns == [] {
      NobodyWaits(a);
    } else {
      assert a.turns[0] in a.turns;
      SizeWithout(a.tracks, a.turns[0]);
      SizeWith(a.tracks, a.turns[0], a.tracks[a.turns[0]][1..]);
    }
  }

  lemma PopIsFair(a: Audio)
    requires Fair(a)
    ensures Fair(PopTurn(a).0)
  {
    if a.turns != [] {
      TurnPasses(a.turns);
    }
  }

  // ---- Fairness over runs --------------------------------------------------------------

  predicate Longest(tracks: map<MediaId, seq<Bytes>>, m: MediaId) {
    m in tracks && forall n :: n in tracks ==> |tracks[n]| <= |tracks[m]|
  }

  /** The longest queue holds at least the average, so a track that holds less than the
      average never makes room for another. */
  lemma LongestIsAtLeastAverage(tracks: map<MediaId, seq<Bytes>>, longest: MediaId, other: MediaId)
    requires Longest(tracks, longest)
    ensures Size(tracks) <= |tracks| * |tracks[longest]|
    ensures other in tracks && |tracks| * |tracks[other]| < Size(tracks) ==> other != longest
  {
    var lengths := Lengths(tracks);
    TotalIsAtMost(lengths, |tracks[longest]|);
    assert lengths.Keys == tracks.Keys;
  }

  function LengthSet(tracks: map<MediaId, seq<Bytes>>): set<int> {
    set m | m in tracks :: |tracks[m]|
  }

  lemma LongestExists(tracks: map<MediaId, seq<Bytes>>)
    requires Size(tracks) > 0
    ensures exists m :: Longest(tracks, m)
  {
    var lengths := LengthSet(tracks);
    if tracks.Keys == {} {
      NoTracks(tracks);
      assert false;
    }
    var some := Pick(tracks.Keys);
    assert |tracks[some]| in lengths;
    var most := Max(lengths);
    var longest :| longest in tracks && |tracks[longest]| == most;
    forall n | n in tracks ensures |tracks[n]| <= most {
      assert |tracks[n]| in lengths;
    }
    assert Longest(tracks, longest);
  }

  datatype AudioOp = Push(mediaId: MediaId, bytes: Bytes) | Pop

  /** What the pops of a run return, while there is room for every packet pushed. */
  function Served(a: Audio, ops: seq<AudioOp>): seq<Option<(MediaId, Bytes)>>
    decreases |ops|
  {
    if ops == [] then [] else
    match ops[0]
    case Push(m, bytes) => Served(Enqueue(a, m, bytes), ops[1..])
    case Pop => [PopTurn(a).1] + Served(PopTurn(a).0, ops[1..])
  }

  /** However much else is pushed meanwhile, the track at place `i` of the turns is served by
      the pop numbered `i`, and gets its oldest packet out. */
  lemma {:induction false} ServedWithinItsTurn(a: Audio, ops: seq<AudioOp>, i: nat)
    requires Fair(a) && i < |a.turns| && i < |Served(a, ops)|
    ensures Served(a, ops)[i] == Some((a.turns[i], a.tracks[a.turns[i]][0]))
    decreases |ops|
  {
    if ops != [] {
      match ops[0]
      case Push(m, bytes) =>
        EnqueueIsFair(a, m, bytes);
        ServedWithinItsTurn(Enqueue(a, m, bytes), ops[1..], i);
      case Pop =>
        PopIsFair(a);
        if i > 0 {
          ServedWithinItsTurn(PopTurn(a).0, ops[1..], i - 1);
        }
    }
  }
}

module AudioEgress {
  import opened Collections
  import opened VideoModel
  import opened AudioModel

  /** How a packet left its queue. */
  datatype Departure = Forwarded(bytes: Bytes) | Evicted(bytes: Bytes)

  type Departures = map<MediaId, seq<Departure>>

  ghost function PacketsOf(departures: seq<Departure>): seq<Bytes> {
    if departures == [] then []
    else PacketsOf(departures[..|departures| - 1]) + [departures[|departures| - 1].bytes]
  }

  ghost function DeparturesOf(departed: Departures, m: MediaId): seq<Departure> {
    if m in departed then departed[m] else []
  }

  ghost function Log(departed: Departures, m: MediaId, d: Departure): Departures {
    departed[m := DeparturesOf(departed, m) + [d]]
  }

  /** On track `m`, what was pushed is what left, oldest first, followed by what is queued. */
  ghost predicate ConservedOn(pushed: map<MediaId, seq<Bytes>>, departed: Departures,
                              tracks: map<MediaId, seq<Bytes>>, m: MediaId) {
    QueueOf(pushed, m) == PacketsOf(DeparturesOf(departed, m)) + QueueOf(tracks, m)
  }

  ghost predicate Conserved(pushed: map<MediaId, seq<Bytes>>, departed: Departures, tracks: map<MediaId, seq<Bytes>>) {
    forall m: MediaId :: ConservedOn(pushed, departed, tracks, m)
  }

  lemma PushConserves(pushed: map<MediaId, seq<Bytes>>, departed: Departures, tracks: map<MediaId, seq<Bytes>>,
                      m: MediaId, bytes: Bytes)
    requires Conserved(pushed, departed, tracks)
    ensures Conserved(pushed[m := QueueOf(pushed, m) + [bytes]], departed, tracks[m := QueueOf(tracks, m) + [bytes]])
  {
    var pushed', tracks' := pushed[m := QueueOf(pushed, m) + [bytes]], tracks[m := QueueOf(tracks, m) + [bytes]];
    forall n: MediaId ensures ConservedOn(pushed', departed, tracks', n) {
      assert ConservedOn(pushed, departed, tracks, n);
    }
  }

  /** Whether served or evicted, only the oldest packet of a queue leaves it. */
  lemma DepartureConserves(pushed: map<MediaId, seq<Bytes>>, departed: Departures, tracks: map<MediaId, seq<Bytes>>,
                           after: map<MediaId, seq<Bytes>>, m: MediaId, d: Departure)
    requires Conserved(pushed, departed, tracks)
    requires m in tracks && tracks[m] == [d.bytes] + QueueOf(after, m)
    requires forall n: MediaId :: n != m ==> QueueOf(after, n) == QueueOf(tracks, n)
    ensures Conserved(pushed, Log(departed, m, d), after)
  {
    var left := DeparturesOf(departed, m);
    assert (left + [d])[..|left|] == left;
    forall n: MediaId ensures ConservedOn(pushed, Log(departed, m, d), after, n) {
      assert ConservedOn(pushed, departed, tracks, n);
    }
  }

  lemma PopConserves(pushed: map<MediaId, seq<Bytes>>, departed: Departures, a: Audio)
    requires Conserved(pushed, departed, a.tracks) && PopTurn(a).1.Some?
    ensures var (m, bytes) := PopTurn(a).1.value;
            Conserved(pushed, Log(departed, m, Forwarded(bytes)), PopTurn(a).0.tracks)
  {
    var (m, bytes) := PopTurn(a).1.value;
    DepartureConserves(pushed, departed, a.tracks, PopTurn(a).0.tracks, m, Forwarded(bytes));
  }

  lemma EvictConserves(pushed: map<MediaId, seq<Bytes>>, departed: Departures, a: Audio, m: MediaId)
    requires Conserved(pushed, departed, a.tracks) && m in a.tracks && a.tracks[m] != []
    ensures Conserved(pushed, Log(departed, m, Evicted(a.tracks[m][0])), Evict(a, m).tracks)
  {
    DepartureConserves(pushed, departed, a.tracks, Evict(a, m).tracks, m, Evicted(a.tracks[m][0]));
  }

  class AudioQueues {
    var tracks: map<MediaId, seq<Bytes>>
    /** Whose turn it is, first to last. A track has a turn just while it has packets. */
    var turns: seq<MediaId>
    var len: nat
    /** Every packet pushed so far, and every one that left, per track. */
    ghost var pushed: map<MediaId, seq<Bytes>>
    ghost var departed: Departures

    ghost function View(): Audio
      reads this
    {
      Audio(tracks, turns)
    }

    ghost predicate Valid()
      reads this
    {
      && Fair(View())
      && len == Size(tracks) <= MAX_QUEUED_AUDIO
      && Conserved(pushed, departed, tracks)
    }

    constructor ()
      ensures Valid() && View() == SILENT && pushed == map[] && departed == map[]
    {
      tracks, turns, len := map[], [], 0;
      pushed, departed := map[], map[];
    }

    /** Queues a packet. At the cap one of the longest queues loses its oldest packet first. */
    method Push(mediaId: MediaId, bytes: Bytes) returns (evicted: Option<MediaId>)
      requires Valid()
      modifies this
      ensures Valid()
      ensures evicted.Some? <==> old(len) == 3400
      ensures evicted.Some? ==> Longest(old(tracks), evicted.value)
      ensures View() == Enqueue(if evicted.None? then old(View()) else Evict(old(View()), evicted.value), mediaId, bytes)
      ensures pushed == old(pushed)[mediaId := QueueOf(old(pushed), mediaId) + [bytes]]
      ensures evicted.None? ==> departed == old(departed)
      ensures evicted.Some? ==> departed == Log(old(departed), evicted.value, Evicted(old(tracks)[evicted.value][0]))
    {
      evicted := None;
      if len >= MAX_QUEUED_AUDIO {
        evicted := EvictFromLongest();
      }
      Append(mediaId, bytes);
    }

    method Append(mediaId: MediaId, bytes: Bytes)
      requires Valid() && len < MAX_QUEUED_AUDIO
      modifies `tracks, `turns, `len, `pushed
      ensures Valid()
      ensures View() == Enqueue(old(View()), mediaId, bytes)
      ensures pushed == old(pushed)[mediaId := QueueOf(old(pushed), mediaId) + [bytes]]
    {
      EnqueueIsFair(View(), mediaId, bytes);
      PushConserves(pushed, departed, tracks, mediaId, bytes);
      var queue := if mediaId in tracks then tracks[mediaId] else [];
      if queue == [] {
        turns := turns + [mediaId];
      }
      tracks := tracks[mediaId := queue + [bytes]];
      len := len + 1;
      pushed := pushed[mediaId := QueueOf(pushed, mediaId) + [bytes]];
    }

    method EvictFromLongest() returns (evicted: Option<MediaId>)
      requires Valid() && len > 0
      modifies this
      ensures Valid() && len == old(len) - 1
      ensures evicted.Some? && Longest(old(tracks), evicted.value)
      ensures View() == Evict(old(View()), evicted.value)
      ensures pushed == old(pushed)
      ensures departed == Log(old(departed), evicted.value, Evicted(old(tracks)[evicted.value][0]))
    {
      LongestExists(tracks);
      var mediaId :| Longest(tracks, mediaId);
      EvictIsFair(View(), mediaId);
      var queue := tracks[mediaId];
      EvictConserves(pushed, departed, View(), mediaId);
      departed := Log(departed, mediaId, Evicted(queue[0]));
      queue := queue[1..];
      len := len - 1;
      if queue == [] {
        tracks := tracks - {mediaId};
        turns := Without(turns, mediaId);
      } else {
        tracks := tracks[mediaId := queue];
      }
      evicted := Some(mediaId);
    }

    /** Serves the track whose turn it is. */
    method Pop() returns (served: Option<(MediaId, Bytes)>)
      requires Valid()
      modifies this
      ensures Valid()
      ensures (View(), served) == PopTurn(old(View()))
      ensures served.None? <==> old(len) == 0
      ensures pushed == old(pushed)
      ensures served.None? ==> departed == old(departed)
      ensures served.Some? ==> departed == Log(old(departed), served.value.0, Forwarded(served.value.1))
    {
      PopIsFair(View());
      PopSize(View());
      if turns == [] {
        return None;
      }
      PopConserves(pushed, departed, View());
      var mediaId := turns[0];
      turns := turns[1..];
      var queue := tracks[mediaId];
      var bytes := queue[0];
      departed := Log(departed, mediaId, Forwarded(bytes));
      queue := queue[1..];
      len := len - 1;
      if queue == [] {
        tracks := tracks - {mediaId};
      } else {
        tracks := tracks[mediaId := queue];
        turns := turns + [mediaId];
      }
      served := Some((mediaId, bytes));
    }
  }
}
