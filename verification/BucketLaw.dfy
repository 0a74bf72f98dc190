/** What a caller of the buckets can count on, over runs of calls and written out in numbers. */
module BucketLaw {
  import opened Collections
  import opened BucketModel

  const NEW: Swept := Swept(map[], None)

  function SweptRun(rate: Rate, s: Swept, calls: seq<Call>): Swept
    decreases |calls|
  {
    if calls == [] then s else SweptRun(rate, SweptAfter(rate, s, calls[0]), calls[1..])
  }

  predicate AsksFor(calls: seq<Call>, key: Key) {
    exists i :: 0 <= i < |calls| && calls[i].key == key
  }

  lemma {:induction false} RunsJoin(rate: Rate, s: Swept, first: seq<Call>, second: seq<Call>, clock: Time)
    ensures SweptRun(rate, s, first + second) == SweptRun(rate, SweptRun(rate, s, first), second)
    ensures TimeFlows(first + second, clock) <==> TimeFlows(first, clock) && TimeFlows(second, ClockAfter(first, clock))
    decreases |first|
  {
    hide SweptAfter;
    if first == [] {
      assert first + second == second;
    } else {
      assert (first + second)[1..] == first[1..] + second;
      RunsJoin(rate, SweptAfter(rate, s, first[0]), first[1..], second, first[0].now);
    }
  }

  /** One call: the levels of other keys are as they were, now and later. */
  lemma CallLeaves(rate: Rate, s: Swept, call: Call, clock: Time, key: Key, later: Time)
    requires IsRate(rate) && UpdatedBy(rate, s.buckets, clock) && clock <= call.now <= later && 0.0 <= call.cost
    ensures UpdatedBy(rate, SweptAfter(rate, s, call).buckets, call.now)
    ensures call.key != key ==>
      Level(rate, SweptAfter(rate, s, call).buckets, key, later) == Level(rate, s.buckets, key, later)
  {
    hide Sweep, After, Level;
    var t := Sweep(rate, s, call.now).buckets;
    StillUpdated(rate, s.buckets, clock, call.now);
    SweepKeepsLevels(rate, s, call.now);
    LevelAfter(rate, t, call, key);
    assert Level(rate, t, key, call.now) == Level(rate, s.buckets, key, call.now);
    LevelLater(rate, s.buckets, key, call.now, later);
    LevelLater(rate, After(rate, t, call), key, call.now, later);
  }

  lemma {:induction false} RunLeaves(rate: Rate, s: Swept, calls: seq<Call>, clock: Time, key: Key, later: Time)
    requires IsRate(rate) && UpdatedBy(rate, s.buckets, clock) && TimeFlows(calls, clock) && ClockAfter(calls, clock) <= later
    ensures UpdatedBy(rate, SweptRun(rate, s, calls).buckets, ClockAfter(calls, clock))
    ensures clock <= ClockAfter(calls, clock)
    ensures !AsksFor(calls, key) ==>
      Level(rate, SweptRun(rate, s, calls).buckets, key, later) == Level(rate, s.buckets, key, later)
    decreases |calls|
  {
    hide IsRate, UpdatedBy, Level, SweptAfter;
    if calls != [] {
      var after := SweptAfter(rate, s, calls[0]);
      RunLeavesClock(calls, clock);
      CallLeaves(rate, s, calls[0], clock, key, later);
      RunLeaves(rate, after, calls[1..], calls[0].now, key, later);
      if !AsksFor(calls, key) {
        assert calls[0].key != key;
        assert !AsksFor(calls[1..], key);
      }
    }
  }

  lemma {:induction false} RunLeavesClock(calls: seq<Call>, clock: Time)
    requires TimeFlows(calls, clock)
    ensures clock <= ClockAfter(calls, clock)
    ensures calls != [] ==> calls[0].now <= ClockAfter(calls, clock)
    decreases |calls|
  {
    if calls != [] {
      RunLeavesClock(calls[1..], calls[0].now);
    }
  }

  /** The tokens that a call leaves in its bucket, where `had` were in it. */
  predicate Spends(rate: Rate, s: Swept, call: Call, had: real) {
    && (SweptAnswer(rate, s, call) <==> had >= call.cost)
    && call.key in SweptAfter(rate, s, call).buckets
    && SweptAfter(rate, s, call).buckets[call.key] ==
         Bucket(if call.Take? && had >= call.cost then had - call.cost else had, call.now)
  }

  lemma CallSpends(rate: Rate, s: Swept, call: Call)
    requires IsRate(rate) && UpdatedBy(rate, s.buckets, call.now)
    ensures Spends(rate, s, call, Level(rate, s.buckets, call.key, call.now))
  {
    hide Level, Refill, Sweep;
    SweepKeepsLevels(rate, s, call.now);
    LevelIsFilled(rate, Sweep(rate, s, call.now).buckets, call.key, call.now);
  }

  /** Whatever was asked for other keys, the first call for a key finds a full bucket. */
  lemma FirstCallFindsItFull(rate: Rate, calls: seq<Call>, next: Call, clock: Time)
    requires IsRate(rate) && TimeFlows(calls + [next], clock) && !AsksFor(calls, next.key)
    ensures Spends(rate, SweptRun(rate, NEW, calls), next, rate.capacity)
  {
    hide SweptAfter, SweptAnswer;
    RunsJoin(rate, NEW, calls, [next], clock);
    RunLeaves(rate, NEW, calls, clock, next.key, next.now);
    StillUpdated(rate, SweptRun(rate, NEW, calls).buckets, ClockAfter(calls, clock), next.now);
    CallSpends(rate, SweptRun(rate, NEW, calls), next);
  }

  /** After any calls, the next one for a key finds what the last one for that key left and what
      has flowed in since, up to the capacity. It is granted exactly if that is enough, and what it
      takes is taken from that. */
  lemma NextCallFindsTheRest(rate: Rate, calls: seq<Call>, last: Call, between: seq<Call>, next: Call, clock: Time)
    requires IsRate(rate) && TimeFlows(calls + ([last] + (between + [next])), clock)
    requires last.key == next.key && !AsksFor(between, next.key)
    ensures var left := SweptRun(rate, NEW, calls + [last]).buckets;
      && next.key in left
      && Spends(rate, SweptRun(rate, NEW, calls + [last] + between), next,
                Lesser(rate.capacity, left[next.key].tokens + (next.now - last.now) * rate.perSecond))
  {
    hide SweptAfter, SweptAnswer, Spends, Level;
    var was := SweptRun(rate, NEW, calls);
    var left := SweptRun(rate, NEW, calls + [last]);
    var found := SweptRun(rate, NEW, calls + [last] + between);
    RunsJoin(rate, NEW, calls, [last] + (between + [next]), clock);
    RunsJoin(rate, NEW, calls, [last], clock);
    RunsJoin(rate, NEW, calls + [last], between, clock);
    RunsJoin(rate, was, [last], between + [next], ClockAfter(calls, clock));
    RunsJoin(rate, left, between, [next], last.now);
    RunLeaves(rate, NEW, calls, clock, next.key, ClockAfter(calls, clock));
    StillUpdated(rate, was.buckets, ClockAfter(calls, clock), last.now);
    CallLeaves(rate, was, last, last.now, next.key, last.now);
    RunLeaves(rate, left, between, last.now, next.key, next.now);
    StillUpdated(rate, found.buckets, ClockAfter(between, last.now), next.now);
    CallSpends(rate, was, last);
    CallSpends(rate, found, next);
    assert [last][1..] == [];
    assert left == SweptAfter(rate, was, last);
    HeldSince(rate, was, last, left, next.now);
    assert Level(rate, found.buckets, next.key, next.now) == Level(rate, left.buckets, next.key, next.now);
    assert Spends(rate, found, next, Level(rate, found.buckets, next.key, next.now));
    assert Level(rate, found.buckets, next.key, next.now) == Lesser(rate.capacity, left.buckets[next.key].tokens + (next.now - last.now) * rate.perSecond);
  }

  lemma HeldSince(rate: Rate, was: Swept, last: Call, left: Swept, now: Time)
    requires left == SweptAfter(rate, was, last) && last.now <= now
    requires exists had :: Spends(rate, was, last, had)
    ensures last.key in left.buckets
    ensures Level(rate, left.buckets, last.key, now) ==
      Lesser(rate.capacity, left.buckets[last.key].tokens + (now - last.now) * rate.perSecond)
  {
    hide SweptAfter, SweptAnswer;
  }

  /** A key gets at least what flows in: a call that costs no more than has flowed in since the
      last one for its key, and than a full bucket, is granted. */
  lemma WhatFlowsInIsGranted(rate: Rate, calls: seq<Call>, last: Call, between: seq<Call>, next: Call, clock: Time)
    requires IsRate(rate) && TimeFlows(calls + ([last] + (between + [next])), clock)
    requires last.key == next.key && !AsksFor(between, next.key)
    requires next.cost <= rate.capacity && next.cost <= (next.now - last.now) * rate.perSecond
    ensures SweptAnswer(rate, SweptRun(rate, NEW, calls + [last] + between), next)
  {
    hide SweptAfter, SweptAnswer;
    NextCallFindsTheRest(rate, calls, last, between, next, clock);
    RunsJoin(rate, NEW, calls, [last] + (between + [next]), clock);
    RunsJoin(rate, NEW, calls, [last], clock);
    RunLeaves(rate, NEW, calls + [last], clock, next.key, last.now);
  }
}

/** The same of a connection's audio allowances. */
module PolicerLaw {
  import opened Collections
  import opened BucketModel
  import opened PolicerModel
  import opened BucketLaw

  const FRESH: Policer := Policer(map[], None)

  function PolicerRun(s: Policer, packets: seq<Packet>): Policer
    decreases |packets|
  {
    if packets == [] then s else PolicerRun(PolicerModel.SweptAfter(s, packets[0]), packets[1..])
  }

  function LastTime(packets: seq<Packet>, clock: Time): Time {
    if packets == [] then clock else packets[|packets| - 1].now
  }

  predicate SendsOn(packets: seq<Packet>, id: Key) {
    exists i :: 0 <= i < |packets| && packets[i].id == id
  }

  /** What a bucket holds: what it held when last counted and what has flowed in since. */
  function Tokens(rate: Rate, b: Bucket, now: Time): real {
    Lesser(rate.capacity, b.tokens + (now - b.updated) * rate.perSecond)
  }

  lemma {:induction false} PacketsJoin(s: Policer, first: seq<Packet>, second: seq<Packet>, clock: Time)
    ensures PolicerRun(s, first + second) == PolicerRun(PolicerRun(s, first), second)
    ensures PolicerModel.TimeFlows(first + second, clock) <==>
      PolicerModel.TimeFlows(first, clock) && PolicerModel.TimeFlows(second, LastTime(first, clock))
    decreases |first|
  {
    hide PolicerModel.SweptAfter;
    if first == [] {
      assert first + second == second;
    } else {
      assert (first + second)[1..] == first[1..] + second;
      PacketsJoin(PolicerModel.SweptAfter(s, first[0]), first[1..], second, first[0].now);
    }
  }

  ghost predicate SameLater(a: Tracks, b: Tracks, id: Key, later: Time) {
    && Level(PACKETS, PacketsOf(a), id, later) == Level(PACKETS, PacketsOf(b), id, later)
    && Level(BYTES, BytesOf(a), id, later) == Level(BYTES, BytesOf(b), id, later)
  }

  lemma UpToDateLater(tracks: Tracks, now: Time, later: Time)
    requires UpToDate(tracks, now) && now <= later
    ensures UpToDate(tracks, later)
  {
    StillUpdated(PACKETS, PacketsOf(tracks), now, later);
    StillUpdated(BYTES, BytesOf(tracks), now, later);
  }

  lemma PacketLeaves(s: Policer, p: Packet, clock: Time, id: Key, later: Time)
    requires UpToDate(s.tracks, clock) && clock <= p.now <= later && 0.0 <= p.len
    ensures UpToDate(PolicerModel.SweptAfter(s, p).tracks, p.now)
    ensures p.id != id ==> SameLater(PolicerModel.SweptAfter(s, p).tracks, s.tracks, id, later)
  {
    hide PolicerModel.Sweep, PolicerModel.After, Level, PacketsOf, BytesOf, UpdatedBy;
    var t := PolicerModel.Sweep(s, p.now).tracks;
    UpToDateLater(s.tracks, clock, p.now);
    SweepKeeps(s, p.now);
    BothOrNeither(t, p, id);
    assert Level(PACKETS, PacketsOf(t), id, p.now) == Level(PACKETS, PacketsOf(s.tracks), id, p.now);
    assert Level(BYTES, BytesOf(t), id, p.now) == Level(BYTES, BytesOf(s.tracks), id, p.now);
    LevelLater(PACKETS, PacketsOf(s.tracks), id, p.now, later);
    LevelLater(PACKETS, PacketsOf(PolicerModel.After(t, p)), id, p.now, later);
    LevelLater(BYTES, BytesOf(s.tracks), id, p.now, later);
    LevelLater(BYTES, BytesOf(PolicerModel.After(t, p)), id, p.now, later);
  }

  lemma {:induction false} PacketsLeave(s: Policer, packets: seq<Packet>, clock: Time, id: Key, later: Time)
    requires UpToDate(s.tracks, clock) && PolicerModel.TimeFlows(packets, clock) && LastTime(packets, clock) <= later
    ensures UpToDate(PolicerRun(s, packets).tracks, LastTime(packets, clock))
    ensures clock <= LastTime(packets, clock)
    ensures !SendsOn(packets, id) ==> SameLater(PolicerRun(s, packets).tracks, s.tracks, id, later)
    decreases |packets|
  {
    hide UpToDate, Level, PolicerModel.SweptAfter;
    if packets != [] {
      TimesRise(packets, clock);
      PacketLeaves(s, packets[0], clock, id, later);
      PacketsLeave(PolicerModel.SweptAfter(s, packets[0]), packets[1..], packets[0].now, id, later);
      if !SendsOn(packets, id) {
        assert packets[0].id != id;
        assert !SendsOn(packets[1..], id);
      }
    }
  }

  lemma {:induction false} TimesRise(packets: seq<Packet>, clock: Time)
    requires PolicerModel.TimeFlows(packets, clock)
    ensures clock <= LastTime(packets, clock)
    ensures packets != [] ==> packets[0].now <= LastTime(packets, clock)
    decreases |packets|
  {
    if packets != [] {
      TimesRise(packets[1..], packets[0].now);
    }
  }

  /** A packet finds `tokens` and `bytes` in its buckets: it is admitted exactly if there is a token
      for it and its bytes are there, and then pays in both; otherwise in neither. */
  ghost predicate Pays(s: Policer, p: Packet, tokens: real, bytes: real) {
    var admitted := tokens >= 1.0 && bytes >= p.len;
    var after := PolicerModel.SweptAfter(s, p).tracks;
    && (PolicerModel.SweptAnswer(s, p) <==> admitted)
    && p.id in after
    && Tokens(PACKETS, after[p.id].packets, p.now) == tokens - (if admitted then 1.0 else 0.0)
    && Tokens(BYTES, after[p.id].bytes, p.now) == bytes - (if admitted then p.len else 0.0)
    && InRange(after[p.id], p.now)
  }

  lemma LevelIsTokens(tracks: Tracks, id: Key, now: Time)
    requires id in tracks && UpToDate(tracks, now)
    ensures Level(PACKETS, PacketsOf(tracks), id, now) == Tokens(PACKETS, tracks[id].packets, now)
    ensures Level(BYTES, BytesOf(tracks), id, now) == Tokens(BYTES, tracks[id].bytes, now)
    ensures InRange(tracks[id], now)
  {
    EachInRange(tracks, now);
  }

  lemma PacketPays(s: Policer, p: Packet)
    requires UpToDate(s.tracks, p.now) && 0.0 <= p.len
    ensures Pays(s, p, Level(PACKETS, PacketsOf(s.tracks), p.id, p.now), Level(BYTES, BytesOf(s.tracks), p.id, p.now))
  {
    hide PolicerModel.Sweep, Level, UpToDate, Tokens, PolicerModel.Admit, InRange;
    var t := PolicerModel.Sweep(s, p.now).tracks;
    SweepKeeps(s, p.now);
    BothOrNeither(t, p, p.id);
    assert Level(PACKETS, PacketsOf(t), p.id, p.now) == Level(PACKETS, PacketsOf(s.tracks), p.id, p.now);
    assert Level(BYTES, BytesOf(t), p.id, p.now) == Level(BYTES, BytesOf(s.tracks), p.id, p.now);
    LevelIsTokens(PolicerModel.After(t, p), p.id, p.now);
  }

  /** The first packet of a track finds both buckets full. */
  lemma FirstPacketFindsThemFull(packets: seq<Packet>, next: Packet, clock: Time)
    requires PolicerModel.TimeFlows(packets + [next], clock) && !SendsOn(packets, next.id)
    ensures Pays(PolicerRun(FRESH, packets), next, 2500.0, 262_144.0)
  {
    hide PolicerModel.SweptAfter, Pays;
    PacketsJoin(FRESH, packets, [next], clock);
    PacketsLeave(FRESH, packets, clock, next.id, next.now);
    UpToDateLater(PolicerRun(FRESH, packets).tracks, LastTime(packets, clock), next.now);
    PacketPays(PolicerRun(FRESH, packets), next);
  }

  /** Every later one finds what the last packet of its track left in both, and what has flowed in
      since. */
  lemma NextPacketFindsTheRest(packets: seq<Packet>, last: Packet, between: seq<Packet>, next: Packet, clock: Time)
    requires PolicerModel.TimeFlows(packets + ([last] + (between + [next])), clock)
    requires last.id == next.id && !SendsOn(between, next.id)
    ensures var left := PolicerRun(FRESH, packets + [last]).tracks;
      && next.id in left
      && Pays(PolicerRun(FRESH, packets + [last] + between), next,
              Tokens(PACKETS, left[next.id].packets, next.now), Tokens(BYTES, left[next.id].bytes, next.now))
      && InRange(left[next.id], last.now)
      && last.now <= next.now && 0.0 <= next.len
  {
    hide PolicerModel.SweptAfter, Pays, Level, UpToDate, InRange, Tokens;
    var was := PolicerRun(FRESH, packets);
    var left := PolicerRun(FRESH, packets + [last]);
    var found := PolicerRun(FRESH, packets + [last] + between);
    PacketsJoin(FRESH, packets, [last] + (between + [next]), clock);
    PacketsJoin(FRESH, packets, [last], clock);
    PacketsJoin(FRESH, packets + [last], between, clock);
    PacketsJoin(was, [last], between + [next], LastTime(packets, clock));
    PacketsJoin(left, between, [next], last.now);
    assert UpToDate(FRESH.tracks, clock) by {
      EachInRange(FRESH.tracks, clock);
    }
    PacketsLeave(FRESH, packets, clock, next.id, LastTime(packets, clock));
    UpToDateLater(was.tracks, LastTime(packets, clock), last.now);
    PacketLeaves(was, last, last.now, next.id, last.now);
    PacketsLeave(left, between, last.now, next.id, next.now);
    UpToDateLater(found.tracks, LastTime(between, last.now), next.now);
    UpToDateLater(left.tracks, last.now, next.now);
    PacketPays(found, next);
    IsIn(was, last);
    LevelIsTokens(left.tracks, next.id, next.now);
    LevelIsTokens(left.tracks, next.id, last.now);
    assert Pays(found, next, Level(PACKETS, PacketsOf(found.tracks), next.id, next.now), Level(BYTES, BytesOf(found.tracks), next.id, next.now));
    assert SameLater(found.tracks, left.tracks, next.id, next.now);
  }

  lemma IsIn(s: Policer, p: Packet)
    ensures p.id in PolicerModel.SweptAfter(s, p).tracks
  {
    hide PolicerModel.Sweep, PolicerModel.Admit;
  }

  /** A packet is admitted if one token and its bytes have flowed in since the last packet of its
      track. */
  lemma WhatFlowsInIsAdmitted(packets: seq<Packet>, last: Packet, between: seq<Packet>, next: Packet, clock: Time)
    requires PolicerModel.TimeFlows(packets + ([last] + (between + [next])), clock)
    requires last.id == next.id && !SendsOn(between, next.id)
    requires 1.0 <= (next.now - last.now) * 150.0
    requires next.len <= (next.now - last.now) * 81_920.0 && next.len <= 262_144.0
    ensures PolicerModel.SweptAnswer(PolicerRun(FRESH, packets + [last] + between), next)
  {
    hide PolicerModel.SweptAfter, PolicerModel.SweptAnswer;
    NextPacketFindsTheRest(packets, last, between, next, clock);
    var left := PolicerRun(FRESH, packets + [last]).tracks[next.id];
    Times(next.now - last.now, last.now - left.bytes.updated, BYTES.perSecond);
    Times(last.now - left.bytes.updated, next.now - last.now, BYTES.perSecond);
    Times(next.now - last.now, last.now - left.packets.updated, PACKETS.perSecond);
    Times(last.now - left.packets.updated, next.now - last.now, PACKETS.perSecond);
  }
}
