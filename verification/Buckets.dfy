/** Token buckets, kept per key and swept once they are full again. Tokens and seconds are reals. */
module BucketModel {
  import opened Collections

  type Key = int
  /** Seconds. */
  type Time = real

  datatype Rate = Rate(capacity: real, perSecond: real)

  ghost predicate IsRate(rate: Rate) {
    0.0 <= rate.capacity && 0.0 <= rate.perSecond
  }

  datatype Bucket = Bucket(tokens: real, updated: Time)

  type BucketMap = map<Key, Bucket>

  function Lesser(a: real, b: real): (r: real)
    ensures r <= a && r <= b && (r == a || r == b)
  {
    if a <= b then a else b
  }

  function Elapsed(since: Time, now: Time): real {
    if since <= now then now - since else 0.0
  }

  function Refill(rate: Rate, b: Bucket, now: Time): Bucket {
    Bucket(Lesser(b.tokens + Elapsed(b.updated, now) * rate.perSecond, rate.capacity), now)
  }

  function Full(rate: Rate, now: Time): Bucket {
    Bucket(rate.capacity, now)
  }

  predicate IsFull(rate: Rate, b: Bucket, now: Time) {
    Refill(rate, b, now).tokens >= rate.capacity
  }

  /** The bucket after asking for `cost` tokens, and whether it held them. */
  function TakeFrom(rate: Rate, b: Bucket, cost: real, now: Time): (Bucket, bool) {
    var filled := Refill(rate, b, now);
    if filled.tokens >= cost then (filled.(tokens := filled.tokens - cost), true) else (filled, false)
  }

  // ---- Every bucket kept ---------------------------------------------------------------

  datatype Call = Take(key: Key, cost: real, now: Time) | Holds(key: Key, cost: real, now: Time)

  function BucketOf(rate: Rate, kept: BucketMap, key: Key, now: Time): Bucket {
    if key in kept then kept[key] else Full(rate, now)
  }

  function Answer(rate: Rate, kept: BucketMap, call: Call): bool {
    TakeFrom(rate, BucketOf(rate, kept, call.key, call.now), call.cost, call.now).1
  }

  function After(rate: Rate, kept: BucketMap, call: Call): BucketMap {
    var b := BucketOf(rate, kept, call.key, call.now);
    kept[call.key := if call.Take? then TakeFrom(rate, b, call.cost, call.now).0 else Refill(rate, b, call.now)]
  }

  // ---- Full buckets swept away ---------------------------------------------------------

  const BUCKET_SWEEP: real := 1.0

  datatype Swept = Swept(buckets: BucketMap, nextSweep: Option<Time>)

  function NotFull(rate: Rate, kept: BucketMap, now: Time): BucketMap {
    map k | k in kept && !IsFull(rate, kept[k], now) :: Refill(rate, kept[k], now)
  }

  function Sweep(rate: Rate, s: Swept, now: Time): Swept {
    if s.nextSweep.None? || now >= s.nextSweep.value then Swept(NotFull(rate, s.buckets, now), Some(now + BUCKET_SWEEP)) else s
  }

  function SweptAnswer(rate: Rate, s: Swept, call: Call): bool {
    Answer(rate, Sweep(rate, s, call.now).buckets, call)
  }

  function SweptAfter(rate: Rate, s: Swept, call: Call): Swept {
    var t := Sweep(rate, s, call.now);
    t.(buckets := After(rate, t.buckets, call))
  }

  // ---- Sweeping is invisible -----------------------------------------------------------

  /** The tokens a key has at a time; a bucket that isn't there is full. */
  function Level(rate: Rate, kept: BucketMap, key: Key, now: Time): real {
    if key in kept then Refill(rate, kept[key], now).tokens else rate.capacity
  }

  ghost predicate UpdatedBy(rate: Rate, kept: BucketMap, now: Time) {
    forall k :: k in kept ==> kept[k].updated <= now && 0.0 <= kept[k].tokens <= rate.capacity
  }

  ghost predicate SameLevels(rate: Rate, a: BucketMap, b: BucketMap, now: Time) {
    forall k :: Level(rate, a, k, now) == Level(rate, b, k, now)
  }

  lemma Times(a: real, b: real, c: real)
    ensures (a + b) * c == a * c + b * c
    ensures 0.0 <= a && 0.0 <= c ==> 0.0 <= a * c
  {
  }

  /** Refilling twice is refilling once. */
  lemma RefillTwice(rate: Rate, b: Bucket, middle: Time, now: Time)
    requires IsRate(rate) && b.updated <= middle <= now
    ensures Refill(rate, Refill(rate, b, middle), now) == Refill(rate, b, now)
  {
    Times(middle - b.updated, now - middle, rate.perSecond);
    Times(now - middle, middle - b.updated, rate.perSecond);
    assert (middle - b.updated) + (now - middle) == now - b.updated;
  }

  /** What a key has later depends only on what it has now. */
  lemma LevelLater(rate: Rate, kept: BucketMap, key: Key, now: Time, later: Time)
    requires IsRate(rate) && UpdatedBy(rate, kept, now) && now <= later
    ensures Level(rate, kept, key, later) == Refill(rate, Bucket(Level(rate, kept, key, now), now), later).tokens
  {
    Times(later - now, 0.0, rate.perSecond);
    if key in kept {
      RefillTwice(rate, kept[key], now, later);
    }
  }

  lemma SweepKeepsLevels(rate: Rate, s: Swept, now: Time)
    requires IsRate(rate) && UpdatedBy(rate, s.buckets, now)
    ensures SameLevels(rate, Sweep(rate, s, now).buckets, s.buckets, now)
    ensures UpdatedBy(rate, Sweep(rate, s, now).buckets, now)
  {
    var t := Sweep(rate, s, now).buckets;
    forall k ensures Level(rate, t, k, now) == Level(rate, s.buckets, k, now) {
      if k in s.buckets {
        RefillTwice(rate, s.buckets[k], now, now);
      }
    }
  }

  lemma CallKeepsLevels(rate: Rate, a: BucketMap, b: BucketMap, call: Call)
    requires IsRate(rate) && 0.0 <= call.cost && UpdatedBy(rate, a, call.now) && UpdatedBy(rate, b, call.now) && SameLevels(rate, a, b, call.now)
    ensures Answer(rate, a, call) == Answer(rate, b, call)
    ensures SameLevels(rate, After(rate, a, call), After(rate, b, call), call.now)
    ensures UpdatedBy(rate, After(rate, a, call), call.now) && UpdatedBy(rate, After(rate, b, call), call.now)
  {
    LevelIsFilled(rate, a, call.key, call.now);
    LevelIsFilled(rate, b, call.key, call.now);
    assert Level(rate, a, call.key, call.now) == Level(rate, b, call.key, call.now);
    forall k ensures Level(rate, After(rate, a, call), k, call.now) == Level(rate, After(rate, b, call), k, call.now) {
      assert Level(rate, a, k, call.now) == Level(rate, b, k, call.now);
    }
  }

  lemma LevelIsFilled(rate: Rate, kept: BucketMap, key: Key, now: Time)
    ensures Refill(rate, BucketOf(rate, kept, key, now), now) == Bucket(Level(rate, kept, key, now), now)
  {
  }

  lemma LevelsLater(rate: Rate, a: BucketMap, b: BucketMap, now: Time, later: Time)
    requires IsRate(rate) && now <= later && UpdatedBy(rate, a, now) && UpdatedBy(rate, b, now) && SameLevels(rate, a, b, now)
    ensures SameLevels(rate, a, b, later) && UpdatedBy(rate, a, later) && UpdatedBy(rate, b, later)
  {
    forall k ensures Level(rate, a, k, later) == Level(rate, b, k, later) {
      assert Level(rate, a, k, now) == Level(rate, b, k, now);
      LevelLater(rate, a, k, now, later);
      LevelLater(rate, b, k, now, later);
    }
  }

  ghost predicate TimeFlows(calls: seq<Call>, clock: Time)
    decreases |calls|
  {
    calls != [] ==> clock <= calls[0].now && 0.0 <= calls[0].cost && TimeFlows(calls[1..], calls[0].now)
  }

  function Answers(rate: Rate, kept: BucketMap, calls: seq<Call>): seq<bool>
    decreases |calls|
  {
    if calls == [] then [] else [Answer(rate, kept, calls[0])] + Answers(rate, After(rate, kept, calls[0]), calls[1..])
  }

  function SweptAnswers(rate: Rate, s: Swept, calls: seq<Call>): seq<bool>
    decreases |calls|
  {
    if calls == [] then [] else [SweptAnswer(rate, s, calls[0])] + SweptAnswers(rate, SweptAfter(rate, s, calls[0]), calls[1..])
  }

  /** For any calls at times that don't fall, buckets that are swept answer just as if each were
      kept for ever. */
  lemma {:induction false} SweepingIsInvisible(rate: Rate, s: Swept, kept: BucketMap, calls: seq<Call>, clock: Time)
    requires IsRate(rate) && TimeFlows(calls, clock)
    requires UpdatedBy(rate, s.buckets, clock) && UpdatedBy(rate, kept, clock) && SameLevels(rate, s.buckets, kept, clock)
    ensures SweptAnswers(rate, s, calls) == Answers(rate, kept, calls)
    decreases |calls|
  {
    hide IsRate, SameLevels, UpdatedBy, Answer, After, Sweep;
    if calls != [] {
      var now := calls[0].now;
      var t := Sweep(rate, s, now);
      LevelsLater(rate, s.buckets, kept, clock, now);
      SweepKeepsLevels(rate, s, now);
      SameLevelsTwice(rate, t.buckets, s.buckets, kept, now);
      CallKeepsLevels(rate, t.buckets, kept, calls[0]);
      SweepingIsInvisible(rate, SweptAfter(rate, s, calls[0]), After(rate, kept, calls[0]), calls[1..], now);
    }
  }

  lemma SameLevelsTwice(rate: Rate, a: BucketMap, b: BucketMap, c: BucketMap, now: Time)
    requires SameLevels(rate, a, b, now) && SameLevels(rate, b, c, now)
    ensures SameLevels(rate, a, c, now)
  {
    forall k ensures Level(rate, a, k, now) == Level(rate, c, k, now) {
      assert Level(rate, a, k, now) == Level(rate, b, k, now);
    }
  }

  // ---- What a key is granted -----------------------------------------------------------

  function Granted(rate: Rate, kept: BucketMap, calls: seq<Call>, key: Key): real
    decreases |calls|
  {
    if calls == [] then 0.0
    else (if calls[0].Take? && calls[0].key == key && Answer(rate, kept, calls[0]) then calls[0].cost else 0.0)
         + Granted(rate, After(rate, kept, calls[0]), calls[1..], key)
  }

  function ClockAfter(calls: seq<Call>, clock: Time): Time {
    if calls == [] then clock else calls[|calls| - 1].now
  }

  lemma LevelEarns(rate: Rate, kept: BucketMap, key: Key, now: Time, later: Time)
    requires IsRate(rate) && UpdatedBy(rate, kept, now) && now <= later
    ensures 0.0 <= Level(rate, kept, key, now) <= rate.capacity
    ensures 0.0 <= Level(rate, kept, key, later) <= Level(rate, kept, key, now) + (later - now) * rate.perSecond
  {
    Times(later - now, 0.0, rate.perSecond);
    LevelInRange(rate, kept, key, now);
    LevelLater(rate, kept, key, now, later);
  }

  lemma LevelInRange(rate: Rate, kept: BucketMap, key: Key, now: Time)
    requires IsRate(rate) && UpdatedBy(rate, kept, now)
    ensures 0.0 <= Level(rate, kept, key, now) <= rate.capacity
  {
    if key in kept {
      Times(now - kept[key].updated, 0.0, rate.perSecond);
    }
  }

  /** A call takes what it grants from the key it is for. */
  lemma LevelAfter(rate: Rate, kept: BucketMap, call: Call, key: Key)
    requires IsRate(rate) && UpdatedBy(rate, kept, call.now) && 0.0 <= call.cost
    ensures Level(rate, After(rate, kept, call), key, call.now) ==
      Level(rate, kept, key, call.now) - if call.Take? && call.key == key && Answer(rate, kept, call) then call.cost else 0.0
    ensures UpdatedBy(rate, After(rate, kept, call), call.now)
  {
    LevelIsFilled(rate, kept, call.key, call.now);
    LevelInRange(rate, kept, call.key, call.now);
    assert 0.0 * rate.perSecond == 0.0;
  }

  /** Over any interval a key is granted no more than a full bucket and what flows in meanwhile. */
  lemma {:induction false} GrantsAreBounded(rate: Rate, kept: BucketMap, calls: seq<Call>, key: Key, clock: Time)
    requires IsRate(rate) && UpdatedBy(rate, kept, clock) && TimeFlows(calls, clock)
    ensures Granted(rate, kept, calls, key) <= Level(rate, kept, key, clock) + (ClockAfter(calls, clock) - clock) * rate.perSecond
    ensures Granted(rate, kept, calls, key) <= rate.capacity + (ClockAfter(calls, clock) - clock) * rate.perSecond
    decreases |calls|
  {
    hide IsRate, UpdatedBy, Level, Answer, After;
    LevelEarns(rate, kept, key, clock, clock);
    if calls == [] {
      Nothing(rate.perSecond);
    } else {
      var now, last := calls[0].now, ClockAfter(calls, clock);
      var after := After(rate, kept, calls[0]);
      StillUpdated(rate, kept, clock, now);
      LevelEarns(rate, kept, key, clock, now);
      LevelAfter(rate, kept, calls[0], key);
      GrantsAreBounded(rate, after, calls[1..], key, now);
      assert ClockAfter(calls[1..], now) == last;
      Times(now - clock, last - now, rate.perSecond);
      assert (now - clock) + (last - now) == last - clock;
    }
  }

  lemma Nothing(x: real)
    ensures (x - x) * x == 0.0 && 0.0 * x == 0.0
  {
  }

  lemma StillUpdated(rate: Rate, kept: BucketMap, now: Time, later: Time)
    requires UpdatedBy(rate, kept, now) && now <= later
    ensures UpdatedBy(rate, kept, later)
  {
  }
}

/** The buckets themselves. */
module Limits {
  import opened Collections
  import opened BucketModel

  class Buckets {
    const rate: Rate
    var buckets: BucketMap
    var nextSweep: Option<Time>

    ghost function View(): Swept
      reads this
    {
      Swept(buckets, nextSweep)
    }

    constructor (rate: Rate)
      ensures this.rate == rate && View() == Swept(map[], None)
    {
      this.rate, buckets, nextSweep := rate, map[], None;
    }

    method Take(key: Key, cost: real, now: Time) returns (granted: bool)
      modifies this
      ensures granted == SweptAnswer(rate, old(View()), Call.Take(key, cost, now))
      ensures View() == SweptAfter(rate, old(View()), Call.Take(key, cost, now))
    {
      var b := BucketFor(key, now);
      var (left, holds) := TakeFrom(rate, b, cost, now);
      buckets := buckets[key := left];
      granted := holds;
    }

    /** Asks the same as `Take` would, and leaves every level as it is. */
    method Holds(key: Key, cost: real, now: Time) returns (holds: bool)
      modifies this
      ensures holds == SweptAnswer(rate, old(View()), Call.Holds(key, cost, now))
      ensures View() == SweptAfter(rate, old(View()), Call.Holds(key, cost, now))
    {
      var b := BucketFor(key, now);
      var filled := Refill(rate, b, now);
      buckets := buckets[key := filled];
      holds := filled.tokens >= cost;
    }

    /** The bucket of a key, full if there is none, once those due are swept. */
    method BucketFor(key: Key, now: Time) returns (b: Bucket)
      modifies this
      ensures View() == Sweep(rate, old(View()), now)
      ensures b == BucketOf(rate, buckets, key, now)
    {
      if nextSweep.None? || now >= nextSweep.value {
        buckets := NotFull(rate, buckets, now);
        nextSweep := Some(now + BUCKET_SWEEP);
      }
      b := if key in buckets then buckets[key] else Full(rate, now);
    }
  }
}

/** The audio allowances of a connection: a packet bucket and a byte bucket per track. */
module PolicerModel {
  import opened Collections
  import opened BucketModel

  const PACKETS: Rate := Rate(2500.0, 150.0)
  const BYTES: Rate := Rate(262_144.0, 81_920.0)
  const ALLOWANCE_SWEEP: Time := 10.0

  datatype Allowance = Allowance(packets: Bucket, bytes: Bucket)

  type Tracks = map<Key, Allowance>

  function FullAllowance(now: Time): Allowance {
    Allowance(Full(PACKETS, now), Full(BYTES, now))
  }

  /** Admits one packet, paid for in both buckets. With no packet token left the bytes aren't
      asked, which changes no answer. */
  function Admit(a: Allowance, len: real, now: Time): (Allowance, bool) {
    var packets := Refill(PACKETS, a.packets, now);
    if packets.tokens < 1.0 then (a.(packets := packets), false) else
    var bytes := Refill(BYTES, a.bytes, now);
    if bytes.tokens < len then (Allowance(packets, bytes), false)
    else (Allowance(packets.(tokens := packets.tokens - 1.0), bytes.(tokens := bytes.tokens - len)), true)
  }

  predicate IsFullAllowance(a: Allowance, now: Time) {
    IsFull(PACKETS, a.packets, now) && IsFull(BYTES, a.bytes, now)
  }

  /** An allowance once it was checked for being full. */
  function Checked(a: Allowance, now: Time): Allowance {
    Allowance(Refill(PACKETS, a.packets, now), if IsFull(PACKETS, a.packets, now) then Refill(BYTES, a.bytes, now) else a.bytes)
  }

  function AllowanceOf(tracks: Tracks, id: Key, now: Time): Allowance {
    if id in tracks then tracks[id] else FullAllowance(now)
  }

  // ---- Every allowance kept, and full ones swept ---------------------------------------

  datatype Packet = Packet(id: Key, len: real, now: Time)

  function Answer(tracks: Tracks, p: Packet): bool {
    Admit(AllowanceOf(tracks, p.id, p.now), p.len, p.now).1
  }

  function After(tracks: Tracks, p: Packet): Tracks {
    tracks[p.id := Admit(AllowanceOf(tracks, p.id, p.now), p.len, p.now).0]
  }

  datatype Policer = Policer(tracks: Tracks, nextSweep: Option<Time>)

  function NotFull(tracks: Tracks, now: Time): Tracks {
    map id | id in tracks && !IsFullAllowance(tracks[id], now) :: Checked(tracks[id], now)
  }

  function Sweep(s: Policer, now: Time): Policer {
    if s.nextSweep.None? || now >= s.nextSweep.value then Policer(NotFull(s.tracks, now), Some(now + ALLOWANCE_SWEEP)) else s
  }

  function SweptAnswer(s: Policer, p: Packet): bool {
    Answer(Sweep(s, p.now).tracks, p)
  }

  function SweptAfter(s: Policer, p: Packet): Policer {
    Sweep(s, p.now).(tracks := After(Sweep(s, p.now).tracks, p))
  }

  // ---- Sweeping is invisible here too --------------------------------------------------

  function PacketsOf(tracks: Tracks): BucketMap {
    map id | id in tracks :: tracks[id].packets
  }

  function BytesOf(tracks: Tracks): BucketMap {
    map id | id in tracks :: tracks[id].bytes
  }

  ghost predicate UpToDate(tracks: Tracks, now: Time) {
    UpdatedBy(PACKETS, PacketsOf(tracks), now) && UpdatedBy(BYTES, BytesOf(tracks), now)
  }

  ghost predicate Alike(a: Tracks, b: Tracks, now: Time) {
    SameLevels(PACKETS, PacketsOf(a), PacketsOf(b), now) && SameLevels(BYTES, BytesOf(a), BytesOf(b), now)
  }

  ghost predicate InRange(a: Allowance, now: Time) {
    && a.packets.updated <= now && 0.0 <= a.packets.tokens <= PACKETS.capacity
    && a.bytes.updated <= now && 0.0 <= a.bytes.tokens <= BYTES.capacity
  }

  lemma EachInRange(tracks: Tracks, now: Time)
    ensures UpToDate(tracks, now) <==> forall id :: id in tracks ==> InRange(tracks[id], now)
  {
    if UpToDate(tracks, now) {
      forall id | id in tracks ensures InRange(tracks[id], now) {
        assert id in PacketsOf(tracks) && id in BytesOf(tracks);
        assert PacketsOf(tracks)[id] == tracks[id].packets && BytesOf(tracks)[id] == tracks[id].bytes;
      }
    }
  }

  lemma RefillInRange(rate: Rate, b: Bucket, now: Time)
    requires IsRate(rate) && b.updated <= now && 0.0 <= b.tokens <= rate.capacity
    ensures 0.0 <= Refill(rate, b, now).tokens <= rate.capacity
  {
    Times(now - b.updated, 0.0, rate.perSecond);
  }

  lemma AllowanceLevels(tracks: Tracks, id: Key, now: Time)
    requires UpToDate(tracks, now)
    ensures var a := AllowanceOf(tracks, id, now);
      && Refill(PACKETS, a.packets, now) == Bucket(Level(PACKETS, PacketsOf(tracks), id, now), now)
      && Refill(BYTES, a.bytes, now) == Bucket(Level(BYTES, BytesOf(tracks), id, now), now)
  {
  }

  /** A packet takes from both buckets, or from neither. */
  lemma BothOrNeither(tracks: Tracks, p: Packet, id: Key)
    requires UpToDate(tracks, p.now) && 0.0 <= p.len
    ensures var granted := p.id == id && Answer(tracks, p);
      && Level(PACKETS, PacketsOf(After(tracks, p)), id, p.now) == Level(PACKETS, PacketsOf(tracks), id, p.now) - (if granted then 1.0 else 0.0)
      && Level(BYTES, BytesOf(After(tracks, p)), id, p.now) == Level(BYTES, BytesOf(tracks), id, p.now) - (if granted then p.len else 0.0)
    ensures Answer(tracks, p) <==> Level(PACKETS, PacketsOf(tracks), p.id, p.now) >= 1.0 && Level(BYTES, BytesOf(tracks), p.id, p.now) >= p.len
    ensures UpToDate(After(tracks, p), p.now)
  {
    AllowanceLevels(tracks, p.id, p.now);
    LevelInRange(PACKETS, PacketsOf(tracks), p.id, p.now);
    LevelInRange(BYTES, BytesOf(tracks), p.id, p.now);
    var after := After(tracks, p);
    EachInRange(tracks, p.now);
    EachInRange(after, p.now);
    assert 0.0 * PACKETS.perSecond == 0.0 && 0.0 * BYTES.perSecond == 0.0;
  }

  lemma SweepKeeps(s: Policer, now: Time)
    requires UpToDate(s.tracks, now)
    ensures Alike(Sweep(s, now).tracks, s.tracks, now) && UpToDate(Sweep(s, now).tracks, now)
  {
    var t := Sweep(s, now).tracks;
    EachInRange(s.tracks, now);
    forall id ensures Level(PACKETS, PacketsOf(t), id, now) == Level(PACKETS, PacketsOf(s.tracks), id, now)
      && Level(BYTES, BytesOf(t), id, now) == Level(BYTES, BytesOf(s.tracks), id, now) {
      if id in s.tracks {
        RefillTwice(PACKETS, s.tracks[id].packets, now, now);
        RefillTwice(BYTES, s.tracks[id].bytes, now, now);
        LevelInRange(PACKETS, PacketsOf(s.tracks), id, now);
        LevelInRange(BYTES, BytesOf(s.tracks), id, now);
      }
    }
    CheckedIsUpToDate(s.tracks, now);
  }

  lemma CheckedIsUpToDate(tracks: Tracks, now: Time)
    requires UpToDate(tracks, now)
    ensures UpToDate(NotFull(tracks, now), now)
  {
    EachInRange(tracks, now);
    EachInRange(NotFull(tracks, now), now);
    forall id | id in NotFull(tracks, now) ensures InRange(Checked(tracks[id], now), now) {
      RefillInRange(PACKETS, tracks[id].packets, now);
      RefillInRange(BYTES, tracks[id].bytes, now);
    }
  }

  lemma PacketKeeps(a: Tracks, b: Tracks, p: Packet)
    requires UpToDate(a, p.now) && UpToDate(b, p.now) && Alike(a, b, p.now) && 0.0 <= p.len
    ensures Answer(a, p) == Answer(b, p)
    ensures Alike(After(a, p), After(b, p), p.now) && UpToDate(After(a, p), p.now) && UpToDate(After(b, p), p.now)
  {
    hide Answer, After, Level, PacketsOf, BytesOf, UpdatedBy;
    BothOrNeither(a, p, p.id);
    BothOrNeither(b, p, p.id);
    assert Level(PACKETS, PacketsOf(a), p.id, p.now) == Level(PACKETS, PacketsOf(b), p.id, p.now);
    assert Level(BYTES, BytesOf(a), p.id, p.now) == Level(BYTES, BytesOf(b), p.id, p.now);
    forall id
      ensures Level(PACKETS, PacketsOf(After(a, p)), id, p.now) == Level(PACKETS, PacketsOf(After(b, p)), id, p.now)
      ensures Level(BYTES, BytesOf(After(a, p)), id, p.now) == Level(BYTES, BytesOf(After(b, p)), id, p.now)
    {
      BothOrNeither(a, p, id);
      BothOrNeither(b, p, id);
      assert Level(PACKETS, PacketsOf(a), id, p.now) == Level(PACKETS, PacketsOf(b), id, p.now);
      assert Level(BYTES, BytesOf(a), id, p.now) == Level(BYTES, BytesOf(b), id, p.now);
    }
  }

  ghost predicate TimeFlows(packets: seq<Packet>, clock: Time)
    decreases |packets|
  {
    packets != [] ==> clock <= packets[0].now && 0.0 <= packets[0].len && TimeFlows(packets[1..], packets[0].now)
  }

  function Answers(tracks: Tracks, packets: seq<Packet>): seq<bool>
    decreases |packets|
  {
    if packets == [] then [] else [Answer(tracks, packets[0])] + Answers(After(tracks, packets[0]), packets[1..])
  }

  function SweptAnswers(s: Policer, packets: seq<Packet>): seq<bool>
    decreases |packets|
  {
    if packets == [] then [] else [SweptAnswer(s, packets[0])] + SweptAnswers(SweptAfter(s, packets[0]), packets[1..])
  }

  /** For any packets at times that don't fall, a policer that forgets full allowances admits just
      what one that keeps every allowance would. */
  lemma {:induction false} PolicingIsInvisible(s: Policer, kept: Tracks, packets: seq<Packet>, clock: Time)
    requires TimeFlows(packets, clock) && UpToDate(s.tracks, clock) && UpToDate(kept, clock) && Alike(s.tracks, kept, clock)
    ensures SweptAnswers(s, packets) == Answers(kept, packets)
    decreases |packets|
  {
    hide Answer, After, Sweep, UpdatedBy, SameLevels, PacketsOf, BytesOf;
    if packets != [] {
      var now := packets[0].now;
      var t := Sweep(s, now);
      LevelsLater(PACKETS, PacketsOf(s.tracks), PacketsOf(kept), clock, now);
      LevelsLater(BYTES, BytesOf(s.tracks), BytesOf(kept), clock, now);
      SweepKeeps(s, now);
      SameLevelsTwice(PACKETS, PacketsOf(t.tracks), PacketsOf(s.tracks), PacketsOf(kept), now);
      SameLevelsTwice(BYTES, BytesOf(t.tracks), BytesOf(s.tracks), BytesOf(kept), now);
      PacketKeeps(t.tracks, kept, packets[0]);
      PolicingIsInvisible(SweptAfter(s, packets[0]), After(kept, packets[0]), packets[1..], now);
    }
  }
}

/** The policer itself. */
module Policing {
  import opened Collections
  import opened BucketModel
  import opened PolicerModel

  class AudioPolicer {
    var tracks: PolicerModel.Tracks
    var nextSweep: Option<Time>

    ghost function View(): PolicerModel.Policer
      reads this
    {
      PolicerModel.Policer(tracks, nextSweep)
    }

    constructor ()
      ensures View() == PolicerModel.Policer(map[], None)
    {
      tracks, nextSweep := map[], None;
    }

    method Admit(id: Key, len: nat, now: Time) returns (admitted: bool)
      modifies this
      ensures admitted == PolicerModel.SweptAnswer(old(View()), Packet(id, len as real, now))
      ensures View() == PolicerModel.SweptAfter(old(View()), Packet(id, len as real, now))
    {
      if nextSweep.None? || now >= nextSweep.value {
        tracks := PolicerModel.NotFull(tracks, now);
        nextSweep := Some(now + ALLOWANCE_SWEEP);
      }
      var allowance := if id in tracks then tracks[id] else FullAllowance(now);
      var (left, enough) := PolicerModel.Admit(allowance, len as real, now);
      tracks := tracks[id := left];
      admitted := enough;
    }
  }
}
