/** The indexes over the video units, what they hold, and how they follow each change. */
module EgressIndex {
  import opened Collections
  import opened VideoModel
  import opened VideoInvariants

  type Units = map<int, VideoUnit>
  type CopyKey = (MediaId, Seq)
  type Copies = map<CopyKey, set<int>>

  // ---- What the indexes hold -----------------------------------------------------------

  ghost predicate IsSplit(started: Units, waiting: Units) {
    && (forall id :: id in started ==> started[id].started)
    && (forall id :: id in waiting ==> !waiting[id].started && id !in started)
  }

  ghost predicate SendingIs(sending: set<int>, started: Units) {
    forall id :: id in sending <==> id in started && started[id].packets != []
  }

  ghost predicate CopiesAre(copies: Copies, units: Units) {
    && (forall k, id :: k in copies && id in copies[k] ==> IsQueuedAs(units, id, k.0, k.1))
    && (forall id :: id in units && !units[id].stray ==> IsCopyOf(copies, units[id].mediaId, units[id].firstSeq, id))
    && (forall k :: k in copies ==> copies[k] != {})
  }

  ghost predicate IsCopyOf(copies: Copies, m: MediaId, s: Seq, id: int) {
    (m, s) in copies && id in copies[(m, s)]
  }

  /** Every waiting stray is listed, by rising id; the front alone may be of a unit that is
      gone. */
  ghost predicate StraysAre(strays: seq<int>, waiting: Units) {
    && (forall i, j :: 0 <= i < j < |strays| ==> strays[i] < strays[j])
    && (forall i :: 0 < i < |strays| ==> strays[i] in waiting)
    && (forall i :: 0 <= i < |strays| && strays[i] in waiting ==> waiting[strays[i]].stray)
    && (forall id :: id in waiting && waiting[id].stray ==> id in strays)
  }

  ghost predicate StraysAreBelow(strays: seq<int>, nextId: int) {
    forall i :: 0 <= i < |strays| ==> strays[i] < nextId
  }

  datatype Index = Index(started: Units, waiting: Units, sending: set<int>, strays: seq<int>, copies: Copies, videoBytes: nat)

  ghost predicate IsIndex(ix: Index, units: Units, nextId: int) {
    && units == ix.started + ix.waiting
    && IsSplit(ix.started, ix.waiting)
    && SendingIs(ix.sending, ix.started)
    && CopiesAre(ix.copies, units)
    && StraysAre(ix.strays, ix.waiting)
    && StraysAreBelow(ix.strays, nextId)
    && ix.videoBytes == QueuedBytes(units)
  }

  // ---- How the indexes follow a change -------------------------------------------------

  function RemoveCopy(copies: Copies, k: CopyKey, id: int): Copies {
    if k !in copies then copies
    else if copies[k] - {id} == {} then copies - {k}
    else copies[k := copies[k] - {id}]
  }

  function AddCopy(copies: Copies, k: CopyKey, id: int): Copies {
    copies[k := (if k in copies then copies[k] else {}) + {id}]
  }

  lemma CopiesAreTwins(copies: Copies, units: Units, m: MediaId, s: Seq)
    requires CopiesAre(copies, units)
    ensures Twins(units, m, s) == if (m, s) in copies then copies[(m, s)] else {}
  {
    var twins := Twins(units, m, s);
    var stored := if (m, s) in copies then copies[(m, s)] else {};
    forall id ensures id in twins <==> id in stored {
      if id in twins {
        assert IsCopyOf(copies, units[id].mediaId, units[id].firstSeq, id);
      }
      if id in stored {
        assert IsQueuedAs(units, id, m, s);
      }
    }
  }

  lemma CopiesWithout(copies: Copies, units: Units, id: int)
    requires CopiesAre(copies, units) && id in units && !units[id].stray
    ensures CopiesAre(RemoveCopy(copies, (units[id].mediaId, units[id].firstSeq), id), units - {id})
  {
    var k := (units[id].mediaId, units[id].firstSeq);
    var after := RemoveCopy(copies, k, id);
    forall j | j in units - {id} && !units[j].stray
      ensures IsCopyOf(after, units[j].mediaId, units[j].firstSeq, j)
    {
      assert IsCopyOf(copies, units[j].mediaId, units[j].firstSeq, j);
      if (units[j].mediaId, units[j].firstSeq) == k {
        assert j in copies[k] - {id};
      }
    }
    forall l, j | l in after && j in after[l] ensures IsQueuedAs(units - {id}, j, l.0, l.1) {
      assert IsQueuedAs(units, j, l.0, l.1);
    }
  }

  lemma CopiesWith(copies: Copies, units: Units, u: VideoUnit)
    requires CopiesAre(copies, units) && u.id !in units && !u.stray
    ensures CopiesAre(AddCopy(copies, (u.mediaId, u.firstSeq), u.id), units[u.id := u])
  {
    var k := (u.mediaId, u.firstSeq);
    var after := AddCopy(copies, k, u.id);
    var units2 := units[u.id := u];
    forall j | j in units2 && !units2[j].stray
      ensures IsCopyOf(after, units2[j].mediaId, units2[j].firstSeq, j)
    {
      if j != u.id {
        assert IsCopyOf(copies, units[j].mediaId, units[j].firstSeq, j);
      }
    }
    forall l, j | l in after && j in after[l] ensures IsQueuedAs(units[u.id := u], j, l.0, l.1) {
      if j != u.id {
        assert IsQueuedAs(units, j, l.0, l.1);
      }
    }
  }

  /** Two collections of units that the copies index can't tell apart. */
  ghost predicate SameCopies(before: Units, after: Units) {
    forall id, m, s :: IsQueuedAs(before, id, m, s) <==> IsQueuedAs(after, id, m, s)
  }

  lemma CopiesStay(copies: Copies, before: Units, after: Units)
    requires CopiesAre(copies, before) && SameCopies(before, after)
    ensures CopiesAre(copies, after)
  {
    forall l, j | l in copies && j in copies[l] ensures IsQueuedAs(after, j, l.0, l.1) {
      assert IsQueuedAs(before, j, l.0, l.1);
    }
    forall j | j in after && !after[j].stray ensures IsCopyOf(copies, after[j].mediaId, after[j].firstSeq, j) {
      assert IsQueuedAs(after, j, after[j].mediaId, after[j].firstSeq);
      assert IsQueuedAs(before, j, after[j].mediaId, after[j].firstSeq);
    }
  }

  lemma BytesWith(units: Units, id: int, u: VideoUnit)
    ensures id in units ==> QueuedBytes(units[id := u]) == QueuedBytes(units) - Length(units[id].packets) + Length(u.packets)
    ensures id !in units ==> QueuedBytes(units[id := u]) == QueuedBytes(units) + Length(u.packets)
  {
    TotalWith(Sizes(units), id, Length(u.packets));
    assert Sizes(units[id := u]) == Sizes(units)[id := Length(u.packets)];
  }

  lemma BytesWithout(units: Units, id: int)
    requires id in units
    ensures QueuedBytes(units) == QueuedBytes(units - {id}) + Length(units[id].packets)
  {
    TotalWithout(Sizes(units), id);
    assert Sizes(units - {id}) == Sizes(units) - {id};
  }

  lemma {:induction false} LengthOfMore(packets: seq<Bytes>, bytes: Bytes)
    ensures Length(packets + [bytes]) == Length(packets) + |bytes.content|
  {
    if packets == [] {
      assert packets + [bytes] == [bytes];
    } else {
      LengthOfMore(packets[1..], bytes);
      assert (packets + [bytes])[1..] == packets[1..] + [bytes];
    }
  }

  lemma SplitWithout(started: Units, waiting: Units, id: int)
    requires IsSplit(started, waiting)
    ensures IsSplit(started - {id}, waiting - {id})
    ensures (started - {id}) + (waiting - {id}) == (started + waiting) - {id}
  {
  }

  lemma SendingWithout(sending: set<int>, started: Units, id: int)
    requires SendingIs(sending, started)
    ensures SendingIs(sending - {id}, started - {id})
  {
  }

  lemma StraysWithout(strays: seq<int>, waiting: Units, id: int)
    requires StraysAre(strays, waiting)
    requires id in waiting && waiting[id].stray ==> strays != [] && strays[0] == id
    ensures StraysAre(strays, waiting - {id})
  {
  }

  /** Whether `id`, if it is a waiting stray, is the one in front. */
  predicate InFrontIfStray(ix: Index, id: int) {
    id in ix.waiting && ix.waiting[id].stray ==> ix.strays != [] && ix.strays[0] == id
  }

  /** A queue whose indexes say just what its list of units does. */
  ghost predicate Good(ix: Index, v: Video) {
    Inv(v) && IsIndex(ix, v.units, v.nextId)
  }

  /** Where a unit is found. */
  lemma UnitIs(ix: Index, v: Video, id: int)
    requires Good(ix, v)
    ensures v.units == ix.started + ix.waiting
    ensures id in v.units ==>
      && v.units[id].id == id
      && v.units[id] == (if id in ix.started then ix.started[id] else ix.waiting[id])
      && (v.units[id].started <==> id in ix.started)
  {
  }

  lemma BytesAre(ix: Index, v: Video)
    requires Good(ix, v)
    ensures ix.videoBytes == QueuedBytes(v.units)
  {
  }

  function FinishIndex(ix: Index, u: VideoUnit, id: int): Index {
    Index(ix.started - {id}, ix.waiting - {id}, ix.sending - {id}, ix.strays,
          if u.stray then ix.copies else RemoveCopy(ix.copies, (u.mediaId, u.firstSeq), id),
          if ix.videoBytes < Length(u.packets) then 0 else ix.videoBytes - Length(u.packets))
  }

  lemma FinishIndexes(ix: Index, units: Units, nextId: int, id: int)
    requires IsIndex(ix, units, nextId) && id in units && InFrontIfStray(ix, id)
    ensures Length(units[id].packets) <= ix.videoBytes
    ensures IsIndex(FinishIndex(ix, units[id], id), units - {id}, nextId)
  {
    BytesWithout(units, id);
    SplitWithout(ix.started, ix.waiting, id);
    SendingWithout(ix.sending, ix.started, id);
    StraysWithout(ix.strays, ix.waiting, id);
    if units[id].stray {
      assert SameCopies(units, units - {id});
      CopiesStay(ix.copies, units, units - {id});
    } else {
      CopiesWithout(ix.copies, units, id);
    }
  }

  lemma FinishIsGood(ix: Index, v: Video, id: int, fate: Fate)
    requires Good(ix, v) && id in v.units && InFrontIfStray(ix, id) && !fate.Queued?
    ensures v.units[id].id == id && Length(v.units[id].packets) <= ix.videoBytes
    ensures Good(FinishIndex(ix, v.units[id], id), Finish(v, id, fate))
    ensures Finish(v, id, fate).units == (ix.started - {id}) + (ix.waiting - {id})
  {
    FinishKeepsInv(v, id, fate);
    FinishIndexes(ix, v.units, v.nextId, id);
  }

  /** The index after the unit with id `id` became `u`, in the same part of the queue. */
  function ReplaceIndex(ix: Index, id: int, u: VideoUnit): Index {
    if id in ix.started then ix.(started := ix.started[id := u]) else ix.(waiting := ix.waiting[id := u])
  }

  function Replace(v: Video, id: int, u: VideoUnit): Video {
    v.(units := v.units[id := u])
  }

  /** Whether two versions of a unit look the same to every index and invariant. */
  predicate SameToIndexes(u: VideoUnit, w: VideoUnit) {
    u.id == w.id && u.mediaId == w.mediaId && u.firstSeq == w.firstSeq && u.stray == w.stray && u.started == w.started
  }

  lemma ReplaceSplits(ix: Index, id: int, u: VideoUnit)
    requires IsSplit(ix.started, ix.waiting) && id in ix.started + ix.waiting
    requires u.started <==> id in ix.started
    ensures var jx := ReplaceIndex(ix, id, u);
            IsSplit(jx.started, jx.waiting) && jx.started + jx.waiting == (ix.started + ix.waiting)[id := u]
  {
  }

  lemma ReplaceKeepsStrays(strays: seq<int>, waiting: Units, id: int, u: VideoUnit)
    requires StraysAre(strays, waiting) && id in waiting && waiting[id].stray == u.stray
    ensures StraysAre(strays, waiting[id := u])
  {
  }

  lemma ReplaceKeepsCopies(copies: Copies, units: Units, id: int, u: VideoUnit)
    requires CopiesAre(copies, units) && id in units && SameToIndexes(units[id], u)
    ensures CopiesAre(copies, units[id := u])
  {
    assert SameCopies(units, units[id := u]);
    CopiesStay(copies, units, units[id := u]);
  }

  /** What replacing one unit leaves as it was. */
  lemma ReplaceFollows(ix: Index, units: Units, nextId: int, id: int, u: VideoUnit)
    requires IsIndex(ix, units, nextId) && id in units && SameToIndexes(units[id], u)
    ensures var jx := ReplaceIndex(ix, id, u);
      && jx.started + jx.waiting == units[id := u]
      && IsSplit(jx.started, jx.waiting)
      && CopiesAre(ix.copies, units[id := u])
      && StraysAre(ix.strays, jx.waiting)
      && QueuedBytes(units[id := u]) == ix.videoBytes - Length(units[id].packets) + Length(u.packets)
  {
    ReplaceSplits(ix, id, u);
    ReplaceKeepsCopies(ix.copies, units, id, u);
    BytesWith(units, id, u);
    if id in ix.waiting {
      ReplaceKeepsStrays(ix.strays, ix.waiting, id, u);
    }
  }

  lemma WaitingIs(started: Units, waiting: Units)
    requires IsSplit(started, waiting)
    ensures Waiting(started + waiting) == waiting.Keys && Started(started + waiting) == started.Keys
    ensures forall id :: id in WaitingStrays(started + waiting) <==> id in waiting && waiting[id].stray
  {
    var units := started + waiting;
    assert forall id :: id in waiting ==> units[id] == waiting[id];
    assert forall id :: id in started ==> units[id] == started[id];
    forall id ensures id in Waiting(units) <==> id in waiting {
    }
    forall id ensures id in Started(units) <==> id in started {
    }
    SameSet(Waiting(units), waiting.Keys);
    SameSet(Started(units), started.Keys);
  }

  lemma ReplaceKeepsInv(v: Video, id: int, u: VideoUnit)
    requires Inv(v) && id in v.units && SameToIndexes(v.units[id], u) && (u.started || u.packets != [])
    ensures Inv(Replace(v, id, u))
  {
    var w := Replace(v, id, u);
    forall m: MediaId, s: Seq ensures FateIsTrue(w, m, s) {
      assert FateIsTrue(v, m, s);
    }
    assert w.history == v.history;
  }

  lemma ReplaceIsIndexed(ix: Index, v: Video, id: int, u: VideoUnit)
    requires Good(ix, v) && id in v.units && SameToIndexes(v.units[id], u) && u.packets == v.units[id].packets
    ensures IsIndex(ReplaceIndex(ix, id, u), Replace(v, id, u).units, v.nextId)
  {
    ReplaceFollows(ix, v.units, v.nextId, id, u);
  }

  lemma ReplaceIsGood(ix: Index, v: Video, id: int, u: VideoUnit)
    requires Good(ix, v) && id in v.units && SameToIndexes(v.units[id], u) && u.packets == v.units[id].packets
    ensures Good(ReplaceIndex(ix, id, u), Replace(v, id, u))
    ensures Replace(v, id, u).units == ReplaceIndex(ix, id, u).started + ReplaceIndex(ix, id, u).waiting
  {
    ReplaceKeepsInv(v, id, u);
    ReplaceIsIndexed(ix, v, id, u);
  }

  /** The index after `bytes` was added to the unit with id `id`, which became `u`. */
  function GrowIndex(ix: Index, id: int, u: VideoUnit, bytes: Bytes): Index {
    ReplaceIndex(ix, id, u).(
      sending := if id in ix.started then ix.sending + {id} else ix.sending,
      videoBytes := ix.videoBytes + |bytes.content|)
  }

  lemma GrowIsIndexed(ix: Index, units: Units, nextId: int, id: int, u: VideoUnit, bytes: Bytes)
    requires IsIndex(ix, units, nextId) && id in units && SameToIndexes(units[id], u) && u.packets == units[id].packets + [bytes]
    ensures IsIndex(GrowIndex(ix, id, u, bytes), units[id := u], nextId)
  {
    LengthOfMore(units[id].packets, bytes);
    ReplaceFollows(ix, units, nextId, id, u);
  }

  lemma GrowIsGood(ix: Index, v: Video, id: int, u: VideoUnit, bytes: Bytes)
    requires Good(ix, v) && id in v.units && SameToIndexes(v.units[id], u) && u.packets == v.units[id].packets + [bytes]
    ensures Good(GrowIndex(ix, id, u, bytes), Replace(v, id, u))
    ensures Replace(v, id, u).units == ReplaceIndex(ix, id, u).started + ReplaceIndex(ix, id, u).waiting
  {
    ReplaceKeepsInv(v, id, u);
    GrowIsIndexed(ix, v.units, v.nextId, id, u, bytes);
  }

  /** The index after a new unit was queued. */
  function AddIndex(ix: Index, u: VideoUnit): Index {
    ix.(waiting := ix.waiting[u.id := u],
        strays := if u.stray then ix.strays + [u.id] else ix.strays,
        copies := if u.stray then ix.copies else AddCopy(ix.copies, (u.mediaId, u.firstSeq), u.id),
        videoBytes := ix.videoBytes + Length(u.packets))
  }

  lemma StraysWith(strays: seq<int>, waiting: Units, u: VideoUnit)
    requires StraysAre(strays, waiting) && StraysAreBelow(strays, u.id) && u.id !in waiting
    ensures u.stray ==> StraysAre(strays + [u.id], waiting[u.id := u])
    ensures !u.stray ==> StraysAre(strays, waiting[u.id := u])
  {
    assert u.id !in strays;
  }

  /** Whether the units are split, their strays in order and their bytes summed up. */
  ghost predicate IsLinedUp(ix: Index) {
    IsSplit(ix.started, ix.waiting) && StraysAre(ix.strays, ix.waiting) && ix.videoBytes == QueuedBytes(ix.started + ix.waiting)
  }

  /** Whether a unit comes after all that are queued. */
  ghost predicate IsNewest(ix: Index, u: VideoUnit) {
    u.id !in ix.started && u.id !in ix.waiting && !u.started && StraysAreBelow(ix.strays, u.id)
  }

  lemma CanQueue(ix: Index, v: Video, u: VideoUnit)
    requires Good(ix, v) && u.id == v.nextId && !u.started
    ensures IsLinedUp(ix) && IsNewest(ix, u)
  {
  }

  lemma QueuedIsLinedUp(ix: Index, u: VideoUnit)
    requires IsLinedUp(ix) && IsNewest(ix, u)
    ensures IsLinedUp(AddIndex(ix, u).(copies := ix.copies))
    ensures ix.started + ix.waiting[u.id := u] == (ix.started + ix.waiting)[u.id := u]
  {
    BytesWith(ix.started + ix.waiting, u.id, u);
    StraysWith(ix.strays, ix.waiting, u);
    AddSplits(ix.started, ix.waiting, u);
  }

  lemma AddIsIndexed(ix: Index, units: Units, u: VideoUnit)
    requires IsIndex(ix, units, u.id) && u.id !in units && !u.started
    ensures IsIndex(AddIndex(ix, u), units[u.id := u], u.id + 1)
  {
    BytesWith(units, u.id, u);
    StraysWith(ix.strays, ix.waiting, u);
    AddKeepsCopies(ix.copies, units, u);
    AddSplits(ix.started, ix.waiting, u);
  }

  lemma AddKeepsCopies(copies: Copies, units: Units, u: VideoUnit)
    requires CopiesAre(copies, units) && u.id !in units
    ensures CopiesAre(if u.stray then copies else AddCopy(copies, (u.mediaId, u.firstSeq), u.id), units[u.id := u])
  {
    if u.stray {
      assert SameCopies(units, units[u.id := u]);
      CopiesStay(copies, units, units[u.id := u]);
    } else {
      CopiesWith(copies, units, u);
    }
  }

  lemma AddSplits(started: Units, waiting: Units, u: VideoUnit)
    requires IsSplit(started, waiting) && u.id !in started && !u.started
    ensures IsSplit(started, waiting[u.id := u])
    ensures (started + waiting)[u.id := u] == started + waiting[u.id := u]
  {
  }

  /** The oldest waiting stray is in front, once any that has left is skipped. */
  lemma FrontStrayIsOldest(strays: seq<int>, waiting: Units)
    requires StraysAre(strays, waiting) && strays != [] && strays[0] in waiting
    ensures waiting[strays[0]].stray
    ensures forall id :: id in waiting && waiting[id].stray ==> strays[0] <= id
  {
  }

  lemma StraysSkip(strays: seq<int>, waiting: Units)
    requires StraysAre(strays, waiting) && strays != [] && strays[0] !in waiting
    ensures StraysAre(strays[1..], waiting)
  {
  }

  lemma SkipIsGood(ix: Index, v: Video)
    requires Good(ix, v) && ix.strays != [] && ix.strays[0] !in ix.waiting
    ensures Good(ix.(strays := ix.strays[1..]), v)
  {
    StraysSkip(ix.strays, ix.waiting);
  }

  /** The victim the indexes point at is the one the plain list gives. */
  lemma VictimIsFound(ix: Index, v: Video)
    requires Good(ix, v)
    requires ix.strays != [] ==> ix.strays[0] in ix.waiting
    ensures UnstartedVictim(v.units) ==
      if ix.strays != [] then Some(ix.strays[0])
      else if ix.waiting != map[] then Some(Min(ix.waiting.Keys))
      else None
    ensures UnstartedVictim(v.units).Some? ==> InFrontIfStray(ix, UnstartedVictim(v.units).value)
  {
    WaitingIs(ix.started, ix.waiting);
    if ix.strays != [] {
      FrontStrayIsOldest(ix.strays, ix.waiting);
      assert ix.strays[0] in WaitingStrays(v.units);
    } else {
      forall id ensures id !in WaitingStrays(v.units) {
        assert id !in ix.strays;
      }
      SameSet(WaitingStrays(v.units), {});
    }
  }

  lemma PartsAre(ix: Index, v: Video)
    requires Good(ix, v)
    ensures Waiting(v.units) == ix.waiting.Keys && Started(v.units) == ix.started.Keys
    ensures forall id :: id in ix.waiting ==> v.units[id] == ix.waiting[id]
  {
    WaitingIs(ix.started, ix.waiting);
  }

  lemma TwinsAre(ix: Index, v: Video, m: MediaId, s: Seq)
    requires Good(ix, v)
    ensures Twins(v.units, m, s) == if (m, s) in ix.copies then ix.copies[(m, s)] else {}
    ensures (m, s) in ix.copies ==> ix.copies[(m, s)] != {}
  {
    CopiesAreTwins(ix.copies, v.units, m, s);
  }

  /** Statistics, the tracks seen and the time of the next check don't concern the indexes. */
  lemma OthersDontMatter(ix: Index, v: Video, w: Video)
    requires Good(ix, v) && w.units == v.units && w.history == v.history && w.nextId == v.nextId
    ensures Good(ix, w)
  {
    OnlyHistoryAndUnitsMatter(v, w);
  }

  lemma AddIsGood(ix: Index, v: Video, w: Video, u: VideoUnit)
    requires Good(ix, v) && u.id == v.nextId && !u.started
    requires Inv(w) && w.units == v.units[u.id := u] && w.nextId == v.nextId + 1
    ensures Good(AddIndex(ix, u), w)
    ensures w.units == ix.started + AddIndex(ix, u).waiting
  {
    AddIsIndexed(ix, v.units, u);
  }

  lemma FirstIsGood(ix: Index, v: Video, p: Packet, now: Time, u: VideoUnit)
    requires Good(ix, v) && u == FirstUnit(v.nextId, FatesOf(v.history, p.mediaId), p, now)
    ensures u.id == v.nextId && !u.stray && AddIndex(ix, u).copies == AddCopy(ix.copies, (p.mediaId, p.seqNo), v.nextId)
    ensures Good(AddIndex(ix, u), PushFirst(v, p, now))
    ensures var fates := FatesOf(v.history, p.mediaId);
            PushFirst(v, p, now) == Video(
              ix.started + AddIndex(ix, u).waiting,
              v.history[p.mediaId := Remember(fates, p.seqNo, Queued(v.nextId))],
              v.activeTracks, v.nextId + 1, v.nextIdleCheck,
              if WasDropped(fates, p.seqNo) then UncountDrop(v.stats, p.mediaId) else v.stats)
  {
    PushFirstKeepsInv(v, p, now);
    AddIsGood(ix, v, PushFirst(v, p, now), u);
  }

  /** What a fragment finds: no unit that is itself a stray. */
  lemma FragmentFinds(ix: Index, v: Video, m: MediaId, seqNo: Seq)
    requires Good(ix, v)
    ensures var fates := FatesOf(v.history, m);
            var start := UnitStart(fates, seqNo);
            && (start.Some? ==> start.value in fates)
            && (start.Some? && fates[start.value].Queued? ==>
                  && fates[start.value].id in v.units && !v.units[fates[start.value].id].stray
                  && InFrontIfStray(ix, fates[start.value].id))
  {
    var start := UnitStart(FatesOf(v.history, m), seqNo);
    if start.Some? {
      assert FateIsTrue(v, m, start.value);
    }
  }

  lemma StrayIsGood(ix: Index, v: Video, p: Packet, now: Time)
    requires Good(ix, v)
    requires var start := UnitStart(FatesOf(v.history, p.mediaId), p.seqNo);
             start.Some? && FatesOf(v.history, p.mediaId)[start.value] == Sent
    ensures var u := StrayUnit(v.nextId, p, now);
      && Good(AddIndex(ix, u), PushFragment(v, p, now))
      && PushFragment(v, p, now).units == ix.started + AddIndex(ix, u).waiting
  {
    PushFragmentKeepsInv(v, p, now);
    AddIsGood(ix, v, PushFragment(v, p, now), StrayUnit(v.nextId, p, now));
  }

  lemma NoteDroppedIsGood(ix: Index, v: Video, m: MediaId, s: Seq)
    requires Good(ix, v)
    ensures Good(ix, NoteDropped(v, m, s))
  {
    NoteDroppedKeepsInv(v, m, s);
  }

  // ---- Giving up -----------------------------------------------------------------------

  function IdleIn(started: Units, now: Time): set<int> {
    set id | id in started && started[id].packets == [] && now - started[id].lastFragment > UNIT_IDLE
  }

  lemma IdleAre(ix: Index, v: Video, now: Time)
    requires Good(ix, v)
    ensures Idle(v.units, now) == IdleIn(ix.started, now)
    ensures IdleIn(ix.started, now) <= Started(v.units)
  {
    forall id ensures id in Idle(v.units, now) <==> id in IdleIn(ix.started, now) {
      UnitIs(ix, v, id);
    }
  }

  lemma StartedIsNoStray(ix: Index, v: Video, id: int)
    requires Good(ix, v) && id in v.units && v.units[id].started
    ensures InFrontIfStray(ix, id)
  {
  }

  lemma NoneFinished(v: Video)
    ensures FinishAll(v, {}) == v
  {
    assert v.units - {} == v.units;
    forall m | m in v.history ensures MarkSent(v.history[m], {}) == v.history[m] {
    }
    assert FinishAll(v, {}).history == v.history;
  }

  /** Finishing units one by one, in whatever order, is finishing them all. */
  lemma OneMoreFinished(ix: Index, v: Video, ids: set<int>, id: int)
    requires Good(ix, v) && id in v.units && id !in ids
    ensures Finish(FinishAll(v, ids), id, Sent) == FinishAll(v, ids + {id})
  {
    OneMoreMarked(v, ids, id);
  }

  lemma OneMoreMarked(v: Video, ids: set<int>, id: int)
    requires FatesAreTrue(v) && id in v.units && v.units[id].id == id && id !in ids
    ensures Finish(FinishAll(v, ids), id, Sent) == FinishAll(v, ids + {id})
  {
    var w := FinishAll(v, ids);
    var u := v.units[id];
    assert w.units - {id} == v.units - (ids + {id});
    var after := Finish(w, id, Sent).history;
    var expected := FinishAll(v, ids + {id}).history;
    assert after.Keys == expected.Keys;
    forall m | m in v.history ensures after[m] == expected[m] {
      forall s | s in v.history[m] ensures s in after[m] && after[m][s] == expected[m][s] {
        assert FateIsTrue(v, m, s);
      }
      assert after[m].Keys == v.history[m].Keys;
    }
  }

  // ---- Serving -------------------------------------------------------------------------

  /** The index after a started unit gave up its first packet. */
  function ServeIndex(ix: Index, id: int, u: VideoUnit): Index
    requires u.packets != []
  {
    var rest := u.(packets := u.packets[1..]);
    ix.(started := ix.started[id := rest],
        sending := if rest.packets != [] then ix.sending + {id} else ix.sending - {id},
        videoBytes := if ix.videoBytes < |u.packets[0].content| then 0 else ix.videoBytes - |u.packets[0].content|)
  }

  function Serve(v: Video, id: int): Video
    requires id in v.units && v.units[id].packets != []
  {
    Replace(v, id, v.units[id].(packets := v.units[id].packets[1..]))
  }

  lemma ServeIsIndexed(ix: Index, units: Units, nextId: int, id: int, u: VideoUnit)
    requires IsIndex(ix, units, nextId) && id in units && units[id] == u && u.started && u.packets != []
    ensures |u.packets[0].content| <= ix.videoBytes
    ensures IsIndex(ServeIndex(ix, id, u), units[id := u.(packets := u.packets[1..])], nextId)
  {
    ReplaceFollows(ix, units, nextId, id, u.(packets := u.packets[1..]));
    BytesWithout(units, id);
  }

  lemma ServeIsGood(ix: Index, v: Video, id: int)
    requires Good(ix, v) && id in v.units && v.units[id].started && v.units[id].packets != []
    ensures |v.units[id].packets[0].content| <= ix.videoBytes
    ensures Good(ServeIndex(ix, id, v.units[id]), Serve(v, id))
    ensures Serve(v, id).units == ServeIndex(ix, id, v.units[id]).started + ix.waiting
  {
    var u := v.units[id];
    var rest := u.(packets := u.packets[1..]);
    ReplaceKeepsInv(v, id, rest);
    ServeIsIndexed(ix, v.units, v.nextId, id, u);
  }

  /** The index after the first waiting unit was started. */
  function StartIndex(ix: Index, u: VideoUnit, strays: seq<int>): Index {
    ix.(started := ix.started[u.id := u.(started := true)],
        waiting := ix.waiting - {u.id},
        sending := ix.sending + {u.id},
        strays := strays)
  }

  function Start(v: Video, id: int): Video
    requires id in v.units
  {
    Replace(v, id, v.units[id].(started := true))
  }

  lemma StartKeepsInv(v: Video, id: int)
    requires Inv(v) && id in v.units && Waiting(v.units) != {} && id == Min(Waiting(v.units))
    ensures Inv(Start(v, id))
  {
    var w := Start(v, id);
    forall m: MediaId, s: Seq ensures FateIsTrue(w, m, s) {
      assert FateIsTrue(v, m, s);
    }
    forall i, j | i in w.units && j in w.units && w.units[i].started && !w.units[j].started ensures i < j {
      assert j in Waiting(v.units);
    }
    assert w.history == v.history;
  }

  /** Skips the strays no newer than a unit that starts. */
  function StraysAfter(strays: seq<int>, id: int): seq<int> {
    if strays != [] && strays[0] <= id then StraysAfter(strays[1..], id) else strays
  }

  lemma {:induction false} StraysAfterStart(strays: seq<int>, waiting: Units, id: int, nextId: int)
    requires StraysAre(strays, waiting) && StraysAreBelow(strays, nextId)
    requires forall j :: j in waiting ==> id <= j
    ensures StraysAre(StraysAfter(strays, id), waiting - {id}) && StraysAreBelow(StraysAfter(strays, id), nextId)
  {
    if strays != [] && strays[0] <= id {
      if strays[0] in waiting {
        StraysWithout(strays, waiting, id);
        StraysSkip(strays, waiting - {id});
        StraysPast(strays[1..], waiting - {id}, id);
      } else {
        StraysSkip(strays, waiting);
        StraysAfterStart(strays[1..], waiting, id, nextId);
      }
    } else {
      assert id !in strays;
    }
  }

  lemma StraysPast(strays: seq<int>, waiting: Units, id: int)
    requires StraysAre(strays, waiting) && (forall j :: j in waiting ==> id < j)
    requires strays != [] ==> strays[0] in waiting
    ensures StraysAfter(strays, id) == strays
  {
  }

  lemma StartIsIndexed(ix: Index, units: Units, nextId: int, id: int)
    requires IsIndex(ix, units, nextId) && ix.sending == {} && id in ix.waiting && ix.waiting[id].id == id
    requires ix.waiting[id].packets != [] && forall j :: j in ix.waiting ==> id <= j
    ensures IsIndex(StartIndex(ix, units[id], StraysAfter(ix.strays, id)), units[id := units[id].(started := true)], nextId)
  {
    hide IsSplit, CopiesAre, StraysAre, StraysAreBelow, SendingIs;
    var u := units[id].(started := true);
    InWaiting(ix, units, id);
    BytesWith(units, id, u);
    SendingStarts(ix.started, id, u);
    assert SameCopies(units, units[id := u]);
    CopiesStay(ix.copies, units, units[id := u]);
    StraysAfterStart(ix.strays, ix.waiting, id, nextId);
    StartSplits(ix.started, ix.waiting, id);
  }

  lemma InWaiting(ix: Index, units: Units, id: int)
    requires units == ix.started + ix.waiting && id in ix.waiting
    ensures id in units && units[id] == ix.waiting[id]
  {
  }

  lemma SendingStarts(started: Units, id: int, u: VideoUnit)
    requires SendingIs({}, started) && u.packets != []
    ensures SendingIs({} + {id}, started[id := u])
  {
  }

  lemma StartSplits(started: Units, waiting: Units, id: int)
    requires IsSplit(started, waiting) && id in waiting
    ensures var u := waiting[id].(started := true);
      && IsSplit(started[id := u], waiting - {id})
      && started[id := u] + (waiting - {id}) == (started + waiting)[id := u]
  {
  }

  lemma StartIsGood(ix: Index, v: Video, id: int)
    requires Good(ix, v) && Waiting(v.units) != {} && id == Min(Waiting(v.units))
    requires ix.sending == {}
    ensures id in v.units && v.units[id].id == id
    ensures Good(StartIndex(ix, v.units[id], StraysAfter(ix.strays, id)), Start(v, id))
  {
    StartKeepsInv(v, id);
    WaitingIs(ix.started, ix.waiting);
    StartIsIndexed(ix, v.units, v.nextId, id);
  }

  /** Where the indexes find the unit to serve: first among the ones sending, then among the
      waiting. */
  lemma NextIs(ix: Index, v: Video)
    requires Good(ix, v)
    ensures ix.sending != {} ==> Holding(v.units) != {} && Min(Holding(v.units)) == Min(ix.sending)
    ensures ix.sending == {} && ix.waiting != map[] ==> Holding(v.units) != {} && Min(Holding(v.units)) == Min(ix.waiting.Keys)
    ensures ix.sending == {} && ix.waiting == map[] ==> Holding(v.units) == {}
  {
    var holding := Holding(v.units);
    forall id ensures id in holding <==> id in ix.sending || id in ix.waiting {
      UnitIs(ix, v, id);
    }
    if ix.sending != {} {
      forall id | id in holding ensures Min(ix.sending) <= id {
        UnitIs(ix, v, id);
        UnitIs(ix, v, Min(ix.sending));
      }
      assert Min(ix.sending) in holding;
    } else if ix.waiting != map[] {
      assert holding == ix.waiting.Keys;
    } else {
      assert holding == {};
    }
  }

  /** What is served: the unit's first packet, once it is started. */
  lemma PopIs(v: Video, id: int)
    requires Inv(v) && Holding(v.units) != {} && id == Min(Holding(v.units))
    ensures var ready := if v.units[id].started then v else Start(v, id).(stats := PopStats(v, id));
            var served := Serve(ready, id);
      && Pop(v).1 == Some(v.units[id].packets[0])
      && Pop(v).0 == if served.units[id].packets == [] && served.units[id].complete then Finish(served, id, Sent) else served
  {
    var u := v.units[id];
    var rest := u.(started := true, packets := u.packets[1..]);
    assert v.units[id := u.(started := true)][id := rest] == v.units[id := rest];
  }

  function PopStats(v: Video, id: int): map<MediaId, Counters>
    requires id in v.units
  {
    var u := v.units[id];
    if u.started || u.stray || u.copy then v.stats else CountForwarded(v.stats, u.mediaId)
  }

  lemma ForgetIsGood(ix: Index, v: Video)
    requires Good(ix, v)
    ensures Good(ix, ForgetQuietTracks(v))
    ensures QueuedTracks(v.units) == QueuedTracks(ix.started) + QueuedTracks(ix.waiting)
  {
    ForgetKeepsInv(v);
    forall m ensures m in QueuedTracks(v.units) <==> m in QueuedTracks(ix.started) + QueuedTracks(ix.waiting) {
      if m in QueuedTracks(ix.started) {
        var id :| id in ix.started && ix.started[id].mediaId == m;
        UnitIs(ix, v, id);
      }
    }
  }

  /** What starting the first waiting unit does to the indexes. */
  lemma StartingIsGood(ix: Index, v: Video, id: int)
    requires Good(ix, v) && ix.sending == {} && ix.waiting != map[] && id == Min(ix.waiting.Keys)
    ensures id in v.units && v.units[id] == ix.waiting[id] && v.units[id].id == id && !v.units[id].started && v.units[id].packets != []
    ensures Good(StartIndex(ix, ix.waiting[id], StraysAfter(ix.strays, id)), Start(v, id).(stats := PopStats(v, id)))
    ensures Start(v, id).units == StartIndex(ix, ix.waiting[id], ix.strays).started + (ix.waiting - {id})
  {
    PartsAre(ix, v);
    StartIsGood(ix, v, id);
    StartSplits(ix.started, ix.waiting, id);
    OthersDontMatter(StartIndex(ix, ix.waiting[id], StraysAfter(ix.strays, id)), Start(v, id), Start(v, id).(stats := PopStats(v, id)));
  }
}
