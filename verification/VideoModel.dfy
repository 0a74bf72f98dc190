/**
 One receiver's video queue as a single list of units under rising ids. Nothing here is indexed:
 the oldest unit is found by looking at every unit. The class `Egress.Queues` keeps the indexes
 and is proved to do what these functions say.
 */
module VideoModel {
  import opened Collections

  type MediaId = int
  type Seq = int
  /** Nanoseconds. */
  type Time = int

  newtype byte = x: int | 0 <= x < 256
  datatype Bytes = Bytes(content: seq<byte>)

  const VIDEO_BUDGET: Time := 150_000_000
  const MAX_QUEUED_VIDEO_BYTES: nat := 2_343_750
  const MAX_UNIT_FRAGMENTS: nat := 4096
  const UNIT_IDLE: Time := 1_000_000_000
  const IDLE_CHECK: Time := 100_000_000
  const HISTORY: nat := 32

  /** Where a unit is now: queued under an id, sent, or dropped. */
  datatype Fate = Queued(id: int) | Sent | Dropped

  datatype VideoUnit = VideoUnit(
    id: int,
    mediaId: MediaId,
    packets: seq<Bytes>,
    received: nat,
    arrived: Time,
    lastFragment: Time,
    started: bool,
    complete: bool,
    stray: bool,
    firstSeq: Seq,
    copy: bool)

  datatype Counters = Counters(forwarded: nat, droppedUnits: nat)

  datatype Packet = Packet(mediaId: MediaId, seqNo: Seq, first: bool, last: bool, bytes: Bytes)

  /** What is known of a packet that got lost on the way in. */
  datatype Lost = Lost(mediaId: MediaId, seqNo: Seq, first: bool)

  type Fates = map<Seq, Fate>

  datatype Video = Video(
    units: map<int, VideoUnit>,
    history: map<MediaId, Fates>,
    activeTracks: set<MediaId>,
    nextId: int,
    nextIdleCheck: Option<Time>,
    stats: map<MediaId, Counters>)

  const EMPTY: Video := Video(map[], map[], {}, 0, None, map[])

  // ---- Units -------------------------------------------------------------------------

  function NewUnit(id: int, mediaId: MediaId, firstSeq: Seq, bytes: Bytes, now: Time): VideoUnit {
    VideoUnit(id, mediaId, [bytes], 1, now, now, false, false, false, firstSeq, false)
  }

  function Length(packets: seq<Bytes>): nat {
    if packets == [] then 0 else |packets[0].content| + Length(packets[1..])
  }

  function Sizes(units: map<int, VideoUnit>): map<int, nat> {
    map id | id in units :: Length(units[id].packets)
  }

  function QueuedBytes(units: map<int, VideoUnit>): nat {
    Total(Sizes(units))
  }

  function Waiting(units: map<int, VideoUnit>): set<int> {
    set id | id in units && !units[id].started
  }

  function Started(units: map<int, VideoUnit>): set<int> {
    set id | id in units && units[id].started
  }

  function WaitingStrays(units: map<int, VideoUnit>): set<int> {
    set id | id in units && !units[id].started && units[id].stray
  }

  /** Units that hold packets to send. */
  function Holding(units: map<int, VideoUnit>): set<int> {
    set id | id in units && units[id].packets != []
  }

  /** The queued units that are copies of one another: not strays, on one track, with one
      first sequence number. */
  function Twins(units: map<int, VideoUnit>, mediaId: MediaId, firstSeq: Seq): set<int> {
    set id | id in units && !units[id].stray && units[id].mediaId == mediaId && units[id].firstSeq == firstSeq
  }

  // ---- History and statistics ----------------------------------------------------------

  /** The newest `HISTORY` first sequence numbers of a track. */
  function Newest(fates: Fates): Fates {
    if |fates| <= HISTORY then fates else Newest(fates - {Min(fates.Keys)})
  }

  function Remember(fates: Fates, firstSeq: Seq, fate: Fate): Fates {
    Newest(fates[firstSeq := fate])
  }

  function FatesOf(history: map<MediaId, Fates>, mediaId: MediaId): Fates {
    if mediaId in history then history[mediaId] else map[]
  }

  function AtOrBelow(fates: Fates, seqNo: Seq): set<Seq> {
    set s | s in fates && s <= seqNo
  }

  /** The start of the unit a fragment is taken to be of: of the remembered ones, the last
      that isn't after it. */
  function UnitStart(fates: Fates, seqNo: Seq): Option<Seq> {
    var below := AtOrBelow(fates, seqNo);
    if below == {} then None else Some(Max(below))
  }

  function CountersOf(stats: map<MediaId, Counters>, mediaId: MediaId): Counters {
    if mediaId in stats then stats[mediaId] else Counters(0, 0)
  }

  function CountDrop(stats: map<MediaId, Counters>, mediaId: MediaId): map<MediaId, Counters> {
    var c := CountersOf(stats, mediaId);
    stats[mediaId := c.(droppedUnits := c.droppedUnits + 1)]
  }

  /** A dropped unit that is sent again was not lost after all. */
  function UncountDrop(stats: map<MediaId, Counters>, mediaId: MediaId): map<MediaId, Counters> {
    var c := CountersOf(stats, mediaId);
    stats[mediaId := c.(droppedUnits := if c.droppedUnits == 0 then 0 else c.droppedUnits - 1)]
  }

  function CountForwarded(stats: map<MediaId, Counters>, mediaId: MediaId): map<MediaId, Counters> {
    var c := CountersOf(stats, mediaId);
    stats[mediaId := c.(forwarded := c.forwarded + 1)]
  }

  // ---- Leaving the queue ---------------------------------------------------------------

  /** Notes the fate of a unit where the history still points at it. */
  function Redirect(history: map<MediaId, Fates>, u: VideoUnit, fate: Fate): map<MediaId, Fates> {
    var fates := FatesOf(history, u.mediaId);
    if u.firstSeq in fates && fates[u.firstSeq] == Queued(u.id)
    then history[u.mediaId := fates[u.firstSeq := fate]]
    else history
  }

  function Finish(v: Video, id: int, fate: Fate): Video {
    if id !in v.units then v
    else v.(units := v.units - {id}, history := Redirect(v.history, v.units[id], fate))
  }

  /** The queue without a unit, whose start is dropped from then on. If another copy is queued, the
      oldest one is counted in its place; with none, and if it was neither a stray nor a copy
      itself, it goes down as a drop. */
  function Drop(v: Video, id: int): Video {
    if id !in v.units then v else
    var u := v.units[id];
    var left := Finish(v, id, Dropped);
    var twins := Twins(left.units, u.mediaId, u.firstSeq);
    if twins != {} then
      var twin := Min(twins);
      left.(units := left.units[twin := left.units[twin].(copy := false)])
    else if u.stray || u.copy then left
    else left.(stats := CountDrop(left.stats, u.mediaId))
  }

  // ---- Arriving ------------------------------------------------------------------------

  function PushVideo(v: Video, p: Packet, now: Time): Video {
    var v := v.(activeTracks := v.activeTracks + {p.mediaId});
    if p.first then PushFirst(v, p, now) else PushFragment(v, p, now)
  }

  predicate WasDropped(fates: Fates, firstSeq: Seq) {
    firstSeq in fates && fates[firstSeq] == Dropped
  }

  /** A unit's first fragment. One seen before and not dropped is a copy. */
  function FirstUnit(id: int, fates: Fates, p: Packet, now: Time): VideoUnit {
    NewUnit(id, p.mediaId, p.seqNo, p.bytes, now).(
      complete := p.last, copy := p.seqNo in fates && !WasDropped(fates, p.seqNo))
  }

  /** A fragment whose unit has gone out: it waits as a unit of its own. */
  function StrayUnit(id: int, p: Packet, now: Time): VideoUnit {
    NewUnit(id, p.mediaId, p.seqNo, p.bytes, now).(complete := true, stray := true)
  }

  function Grown(u: VideoUnit, p: Packet, now: Time): VideoUnit {
    u.(packets := u.packets + [p.bytes], received := u.received + 1,
       lastFragment := now, complete := u.complete || p.last)
  }

  function PushFirst(v: Video, p: Packet, now: Time): Video {
    var fates := FatesOf(v.history, p.mediaId);
    v.(units := v.units[v.nextId := FirstUnit(v.nextId, fates, p, now)],
       history := v.history[p.mediaId := Remember(fates, p.seqNo, Queued(v.nextId))],
       nextId := v.nextId + 1,
       stats := if WasDropped(fates, p.seqNo) then UncountDrop(v.stats, p.mediaId) else v.stats)
  }

  function PushFragment(v: Video, p: Packet, now: Time): Video {
    var fates := FatesOf(v.history, p.mediaId);
    match UnitStart(fates, p.seqNo)
    case None => v
    case Some(start) =>
      match fates[start]
      case Queued(id) =>
        if id !in v.units then v
        else if v.units[id].received >= MAX_UNIT_FRAGMENTS then Drop(v, id)
        else v.(units := v.units[id := Grown(v.units[id], p, now)])
      case Sent => v.(units := v.units[v.nextId := StrayUnit(v.nextId, p, now)], nextId := v.nextId + 1)
      case Dropped => v
  }

  /** A loss spoils the unit it was of: if that is queued it goes whole, and it is a drop in
      the counters just once. */
  function Lose(v: Video, lost: Lost): Video {
    var v := v.(activeTracks := v.activeTracks + {lost.mediaId});
    var fates := FatesOf(v.history, lost.mediaId);
    if lost.first then
      if lost.seqNo in fates then v else NoteDropped(v, lost.mediaId, lost.seqNo)
    else
      match UnitStart(fates, lost.seqNo)
      case None => NoteDropped(v, lost.mediaId, lost.seqNo)
      case Some(start) =>
        match fates[start]
        case Queued(id) => Drop(v, id)
        case Sent => NoteDropped(v, lost.mediaId, start)
        case Dropped => v
  }

  function NoteDropped(v: Video, mediaId: MediaId, firstSeq: Seq): Video {
    v.(history := v.history[mediaId := Remember(FatesOf(v.history, mediaId), firstSeq, Dropped)],
       stats := CountDrop(v.stats, mediaId))
  }

  // ---- Keeping to the budget -----------------------------------------------------------

  /** Started units with nothing to send whose next fragment is overdue. */
  function Idle(units: map<int, VideoUnit>, now: Time): set<int> {
    set id | id in units && units[id].started && units[id].packets == [] && now - units[id].lastFragment > UNIT_IDLE
  }

  function MarkSent(fates: Fates, ids: set<int>): Fates {
    map s | s in fates :: if fates[s].Queued? && fates[s].id in ids then Sent else fates[s]
  }

  function FinishAll(v: Video, ids: set<int>): Video {
    v.(units := v.units - ids,
       history := map m | m in v.history :: MarkSent(v.history[m], ids))
  }

  function GiveUpIdleUnits(v: Video, now: Time): Video {
    if v.nextIdleCheck.Some? && now < v.nextIdleCheck.value then v
    else FinishAll(v.(nextIdleCheck := Some(now + IDLE_CHECK)), Idle(v.units, now))
  }

  /** The unit dropped next among those not started: a stray if there is one, and the oldest. */
  function UnstartedVictim(units: map<int, VideoUnit>): Option<int> {
    if WaitingStrays(units) != {} then Some(Min(WaitingStrays(units)))
    else if Waiting(units) != {} then Some(Min(Waiting(units)))
    else None
  }

  /** Whether the first of the waiting units is past its time. */
  predicate OverBudget(units: map<int, VideoUnit>, now: Time) {
    Waiting(units) != {} && now - units[Min(Waiting(units))].arrived > VIDEO_BUDGET
  }

  function DropOverdue(v: Video, now: Time): Video
    decreases |v.units|
  {
    if OverBudget(v.units, now) && UnstartedVictim(v.units).Some? then
      DropShrinks(v, UnstartedVictim(v.units).value);
      DropOverdue(Drop(v, UnstartedVictim(v.units).value), now)
    else v
  }

  /** What makes room for bytes: an unstarted victim, or the oldest started unit. */
  function ByteVictim(units: map<int, VideoUnit>): Option<int> {
    var unstarted := UnstartedVictim(units);
    if unstarted.Some? then unstarted
    else if Started(units) != {} then Some(Min(Started(units)))
    else None
  }

  function DropExcess(v: Video): Video
    decreases |v.units|
  {
    if QueuedBytes(v.units) > MAX_QUEUED_VIDEO_BYTES && ByteVictim(v.units).Some? then
      DropShrinks(v, ByteVictim(v.units).value);
      DropExcess(Drop(v, ByteVictim(v.units).value))
    else v
  }

  /** One turn of the loop over the excess. */
  lemma ExcessStep(v: Video)
    ensures var victim := if QueuedBytes(v.units) > MAX_QUEUED_VIDEO_BYTES then ByteVictim(v.units) else None;
      && (victim.None? ==> DropExcess(v) == v)
      && (victim.Some? ==> victim.value in v.units && DropExcess(v) == DropExcess(Drop(v, victim.value))
                           && |Drop(v, victim.value).units| < |v.units|)
  {
    if ByteVictim(v.units).Some? {
      DropShrinks(v, ByteVictim(v.units).value);
    }
  }

  lemma DropShrinks(v: Video, id: int)
    requires id in v.units
    ensures Drop(v, id).units.Keys == v.units.Keys - {id}
    ensures |Drop(v, id).units| == |v.units| - 1
  {
    var keys := Drop(v, id).units.Keys;
    assert keys == v.units.Keys - {id};
    assert |keys| == |v.units.Keys| - 1;
  }

  function EnforceBudget(v: Video, now: Time): Video {
    DropExcess(DropOverdue(GiveUpIdleUnits(v, now), now))
  }

  // ---- Serving and forgetting ----------------------------------------------------------

  /** One packet leaves: the front one of the first unit, by id, that has any. */
  function Pop(v: Video): (Video, Option<Bytes>) {
    var holding := Holding(v.units);
    if holding == {} then (v, None) else
    var id := Min(holding);
    var u := v.units[id];
    var rest := u.(started := true, packets := u.packets[1..]);
    var served := v.(
      units := v.units[id := rest],
      stats := if u.started || u.stray || u.copy then v.stats else CountForwarded(v.stats, u.mediaId));
    (if rest.packets == [] && u.complete then Finish(served, id, Sent) else served, Some(u.packets[0]))
  }

  /** The tracks of the queued units. */
  function QueuedTracks(units: map<int, VideoUnit>): set<MediaId> {
    set id | id in units :: units[id].mediaId
  }

  function ForgetQuietTracks(v: Video): Video {
    v.(history := map m | m in v.history && (m in v.activeTracks || m in QueuedTracks(v.units)) :: v.history[m],
       activeTracks := {})
  }
}
