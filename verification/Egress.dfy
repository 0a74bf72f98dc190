/**
 One receiver's queues, with the video units indexed so that every step is cheap. Each method
 is proved to do to the indexed units what `VideoModel` does to the plain list of them.
 */
module Egress {
  import opened Collections
  import opened VideoModel
  import opened VideoInvariants
  import opened EgressIndex
  import opened AudioModel
  import opened AudioEgress

  /** Keeps the newest `HISTORY` first sequence numbers of one track. */
  method RememberFate(fates: Fates, firstSeq: Seq, fate: Fate) returns (kept: Fates)
    ensures kept == Remember(fates, firstSeq, fate)
  {
    kept := fates[firstSeq := fate];
    while |kept| > HISTORY
      invariant Newest(kept) == Remember(fates, firstSeq, fate)
      decreases |kept|
    {
      kept := kept - {Min(kept.Keys)};
    }
  }

  class Queues {
    const audio: AudioQueues
    var started: Units
    var waiting: Units
    /** Ids of the started units with something left to serve. */
    var sending: set<int>
    /** Ids of the waiting strays, oldest first. The front may name a unit that is gone. */
    var strays: seq<int>
    /** For each track and start, the ids of the queued units that began there. */
    var copies: Copies
    var nextIdleCheck: Option<Time>
    var history: map<MediaId, Fates>
    var activeTracks: set<MediaId>
    var nextId: int
    var stats: map<MediaId, Counters>
    var videoBytes: nat

    ghost function View(): Video
      reads this
    {
      Video(started + waiting, history, activeTracks, nextId, nextIdleCheck, stats)
    }

    ghost function Indexes(): Index
      reads this
    {
      Index(started, waiting, sending, strays, copies, videoBytes)
    }

    ghost predicate Valid()
      reads this
    {
      Good(Indexes(), View())
    }

    constructor ()
      ensures Valid() && fresh(audio) && audio.Valid()
      ensures View() == EMPTY && audio.View() == SILENT
    {
      audio := new AudioQueues();
      started, waiting, sending, strays, copies := map[], map[], {}, [], map[];
      nextIdleCheck, history, activeTracks, nextId, stats, videoBytes := None, map[], {}, 0, map[], 0;
      new;
      assert Sizes(View().units) == map[];
    }

    /** Takes a unit out of the queue and every index, whatever they hold. */
    method TakeOut(unit: VideoUnit, fate: Fate)
      requires Length(unit.packets) <= videoBytes
      modifies `started, `waiting, `sending, `videoBytes, `copies, `history
      ensures Indexes() == FinishIndex(old(Indexes()), unit, unit.id)
      ensures history == Redirect(old(history), unit, fate)
    {
      started, waiting, sending := started - {unit.id}, waiting - {unit.id}, sending - {unit.id};
      videoBytes := videoBytes - Length(unit.packets);
      if !unit.stray {
        copies := RemoveCopy(copies, (unit.mediaId, unit.firstSeq), unit.id);
      }
      var fates := FatesOf(history, unit.mediaId);
      if unit.firstSeq in fates && fates[unit.firstSeq] == Queued(unit.id) {
        history := history[unit.mediaId := fates[unit.firstSeq := fate]];
      }
    }

    /** A waiting stray leaves only from the front of the strays. */
    method Finish(id: int, fate: Fate)
      requires Valid() && id in View().units && InFrontIfStray(Indexes(), id) && !fate.Queued?
      modifies `started, `waiting, `sending, `videoBytes, `copies, `history
      ensures Valid()
      ensures View() == VideoModel.Finish(old(View()), id, fate)
    {
      hide Good;
      UnitIs(Indexes(), View(), id);
      FinishIsGood(Indexes(), View(), id, fate);
      TakeOut(if id in started then started[id] else waiting[id], fate);
      assert View() == VideoModel.Finish(old(View()), id, fate);
    }

    method ClearCopy(id: int)
      requires Valid() && id in View().units
      modifies `started, `waiting
      ensures Valid()
      ensures View() == Replace(old(View()), id, old(View()).units[id].(copy := false))
    {
      hide Good;
      UnitIs(Indexes(), View(), id);
      ReplaceIsGood(Indexes(), View(), id, View().units[id].(copy := false));
      if id in started {
        started := started[id := started[id].(copy := false)];
      } else {
        waiting := waiting[id := waiting[id].(copy := false)];
      }
    }

    /** What dropping does to the plain list, done to every index. */
    method DropUnit(id: int)
      requires Valid() && InFrontIfStray(Indexes(), id)
      modifies `started, `waiting, `sending, `videoBytes, `copies, `history, `stats
      ensures Valid()
      ensures View() == Drop(old(View()), id)
    {
      hide Good;
      if id !in started && id !in waiting {
        return;
      }
      var unit := if id in started then started[id] else waiting[id];
      UnitIs(Indexes(), View(), id);
      Finish(id, Dropped);
      TwinsAre(Indexes(), View(), unit.mediaId, unit.firstSeq);
      if (unit.mediaId, unit.firstSeq) in copies {
        ClearCopy(Min(copies[(unit.mediaId, unit.firstSeq)]));
      } else if !unit.stray && !unit.copy {
        OthersDontMatter(Indexes(), View(), View().(stats := CountDrop(stats, unit.mediaId)));
        stats := CountDrop(stats, unit.mediaId);
      }
    }

    method UnstartedVictim() returns (victim: Option<int>)
      requires Valid()
      modifies `strays
      ensures Valid()
      ensures victim == VideoModel.UnstartedVictim(View().units)
      ensures victim.Some? ==> InFrontIfStray(Indexes(), victim.value)
    {
      hide Good;
      while strays != [] && strays[0] !in waiting
        invariant Good(Indexes(), View())
        decreases |strays|
      {
        SkipIsGood(Indexes(), View());
        strays := strays[1..];
      }
      VictimIsFound(Indexes(), View());
      if strays != [] {
        return Some(strays[0]);
      }
      return if waiting == map[] then None else Some(Min(waiting.Keys));
    }

    /** Queues a packet, counting the audio packet that made room for it, if one did. */
    method PushAudio(mediaId: MediaId, bytes: Bytes)
      requires Valid() && audio.Valid()
      modifies `stats, audio
      ensures Valid() && audio.Valid()
      ensures audio.pushed == old(audio.pushed)[mediaId := QueueOf(old(audio.pushed), mediaId) + [bytes]]
      ensures old(audio.len) < MAX_QUEUED_AUDIO ==>
                audio.View() == Enqueue(old(audio.View()), mediaId, bytes) && View() == old(View())
      ensures old(audio.len) == MAX_QUEUED_AUDIO ==> exists evicted ::
                && Longest(old(audio.tracks), evicted)
                && audio.View() == Enqueue(Evict(old(audio.View()), evicted), mediaId, bytes)
                && View() == old(View()).(stats := CountDrop(old(stats), evicted))
    {
      hide Good;
      var evicted := audio.Push(mediaId, bytes);
      if evicted.Some? {
        OthersDontMatter(Indexes(), View(), View().(stats := CountDrop(stats, evicted.value)));
        stats := CountDrop(stats, evicted.value);
      }
    }

    /** The push of the plain list, whichever of its cases the fragment is. */
    method PushVideo(p: Packet, now: Time)
      requires Valid()
      modifies this
      ensures Valid()
      ensures View() == VideoModel.PushVideo(old(View()), p, now)
    {
      hide Good;
      NoteActive(p.mediaId);
      if p.first {
        PushFirst(p, now);
      } else {
        PushFragment(p, now);
      }
    }

    method NoteActive(mediaId: MediaId)
      requires Valid()
      modifies `activeTracks
      ensures Valid()
      ensures View() == old(View()).(activeTracks := old(activeTracks) + {mediaId})
    {
      hide Good;
      OthersDontMatter(Indexes(), View(), View().(activeTracks := activeTracks + {mediaId}));
      activeTracks := activeTracks + {mediaId};
    }

    method PushFirst(p: Packet, now: Time)
      requires Valid()
      modifies this
      ensures Valid()
      ensures View() == VideoModel.PushFirst(old(View()), p, now)
    {
      hide Good, Remember, AddCopy, UncountDrop, WasDropped;
      var unit := FirstUnit(nextId, FatesOf(history, p.mediaId), p, now);
      FirstIsGood(Indexes(), View(), p, now, unit);
      ghost var ix, after := AddIndex(Indexes(), unit), VideoModel.PushFirst(View(), p, now);
      CanQueue(Indexes(), View(), unit);
      hide IsLinedUp, IsNewest;
      Register(p);
      QueueUnit(unit);
      assert Indexes() == ix;
      assert View() == after;
    }

    /** Claims the next id for a unit, as the newest fate of its start. */
    method Register(p: Packet)
      modifies `history, `nextId, `copies, `stats
      ensures nextId == old(nextId) + 1
      ensures history == old(history)[p.mediaId := Remember(FatesOf(old(history), p.mediaId), p.seqNo, Queued(old(nextId)))]
      ensures copies == AddCopy(old(copies), (p.mediaId, p.seqNo), old(nextId))
      ensures stats == if WasDropped(FatesOf(old(history), p.mediaId), p.seqNo) then UncountDrop(old(stats), p.mediaId) else old(stats)
    {
      var fates := FatesOf(history, p.mediaId);
      if WasDropped(fates, p.seqNo) {
        stats := UncountDrop(stats, p.mediaId);
      }
      var remembered := RememberFate(fates, p.seqNo, Queued(nextId));
      history := history[p.mediaId := remembered];
      copies := AddCopy(copies, (p.mediaId, p.seqNo), nextId);
      nextId := nextId + 1;
    }

    /** Puts a unit behind all that are queued. They stay split, the strays in order and the bytes
        summed up. */
    method QueueUnit(unit: VideoUnit)
      requires IsLinedUp(Indexes()) && IsNewest(Indexes(), unit)
      modifies `videoBytes, `strays, `waiting
      ensures IsLinedUp(Indexes()) && View().units == old(View()).units[unit.id := unit]
      ensures Indexes() == AddIndex(old(Indexes()), unit).(copies := copies)
    {
      QueuedIsLinedUp(Indexes(), unit);
      hide IsLinedUp;
      videoBytes := videoBytes + Length(unit.packets);
      if unit.stray {
        strays := strays + [unit.id];
      }
      waiting := waiting[unit.id := unit];
    }

    method PushFragment(p: Packet, now: Time)
      requires Valid()
      modifies this
      ensures Valid()
      ensures View() == VideoModel.PushFragment(old(View()), p, now)
    {
      hide Good;
      var fates := FatesOf(history, p.mediaId);
      var start := UnitStart(fates, p.seqNo);
      FragmentFinds(Indexes(), View(), p.mediaId, p.seqNo);
      if start.None? {
        return;
      }
      match fates[start.value]
      case Queued(id) =>
        if UnitAt(id).received >= MAX_UNIT_FRAGMENTS {
          // A unit goes whole or not at all.
          DropUnit(id);
        } else {
          Grow(id, p, now);
        }
      case Sent =>
        QueueStray(p, now);
      case Dropped =>
    }

    /** A late fragment of a unit that was sent is queued as one of its own. */
    method QueueStray(p: Packet, now: Time)
      requires Valid()
      requires var start := UnitStart(FatesOf(history, p.mediaId), p.seqNo);
        start.Some? && start.value in FatesOf(history, p.mediaId) && FatesOf(history, p.mediaId)[start.value].Sent?
      modifies this
      ensures Valid()
      ensures View() == VideoModel.PushFragment(old(View()), p, now)
    {
      hide Good;
      StrayIsGood(Indexes(), View(), p, now);
      var unit := StrayUnit(nextId, p, now);
      CanQueue(Indexes(), View(), unit);
      hide IsLinedUp, IsNewest;
      nextId := nextId + 1;
      QueueUnit(unit);
    }

    function UnitAt(id: int): VideoUnit
      requires Valid() && id in View().units
      reads this
      ensures UnitAt(id) == View().units[id]
    {
      UnitIs(Indexes(), View(), id);
      if id in started then started[id] else waiting[id]
    }

    method Grow(id: int, p: Packet, now: Time)
      requires Valid() && id in View().units
      modifies this
      ensures Valid()
      ensures View() == Replace(old(View()), id, Grown(old(View()).units[id], p, now))
    {
      hide Good;
      var unit := Grown(UnitAt(id), p, now);
      UnitIs(Indexes(), View(), id);
      GrowIsGood(Indexes(), View(), id, unit, p.bytes);
      if id in started {
        started := started[id := unit];
        sending := sending + {id};
      } else {
        waiting := waiting[id := unit];
      }
      videoBytes := videoBytes + |p.bytes.content|;
    }

    /** What a loss does to the plain list. */
    method Lose(lost: Lost)
      requires Valid()
      modifies this
      ensures Valid()
      ensures View() == VideoModel.Lose(old(View()), lost)
    {
      hide Good;
      NoteActive(lost.mediaId);
      var fates := FatesOf(history, lost.mediaId);
      if lost.first {
        if lost.seqNo !in fates {
          NoteDropped(lost.mediaId, lost.seqNo);
        }
        return;
      }
      var start := UnitStart(fates, lost.seqNo);
      FragmentFinds(Indexes(), View(), lost.mediaId, lost.seqNo);
      if start.None? {
        NoteDropped(lost.mediaId, lost.seqNo);
        return;
      }
      match fates[start.value]
      case Queued(id) => DropUnit(id);
      case Sent => NoteDropped(lost.mediaId, start.value);
      case Dropped =>
    }

    method NoteDropped(mediaId: MediaId, firstSeq: Seq)
      requires Valid()
      modifies `history, `stats
      ensures Valid()
      ensures View() == VideoModel.NoteDropped(old(View()), mediaId, firstSeq)
    {
      hide Good;
      NoteDroppedIsGood(Indexes(), View(), mediaId, firstSeq);
      var remembered := RememberFate(FatesOf(history, mediaId), firstSeq, Dropped);
      history := history[mediaId := remembered];
      stats := CountDrop(stats, mediaId);
    }

    /** Idle units go when a check is due; between checks nothing changes. */
    method GiveUpIdleUnits(now: Time)
      requires Valid()
      modifies this
      ensures Valid()
      ensures View() == VideoModel.GiveUpIdleUnits(old(View()), now)
    {
      hide Good;
      if nextIdleCheck.Some? && now < nextIdleCheck.value {
        return;
      }
      OthersDontMatter(Indexes(), View(), View().(nextIdleCheck := Some(now + IDLE_CHECK)));
      nextIdleCheck := Some(now + IDLE_CHECK);
      IdleAre(Indexes(), View(), now);
      FinishSent(IdleIn(started, now));
    }

    /** Takes the given started units out, in whatever order. */
    method FinishSent(ids: set<int>)
      requires Valid() && ids <= Started(View().units)
      modifies `started, `waiting, `sending, `videoBytes, `copies, `history
      ensures Valid()
      ensures View() == FinishAll(old(View()), ids)
    {
      hide Good;
      var left := ids;
      NoneFinished(View());
      assert ids - left == {};
      while left != {}
        invariant Valid() && left <= ids
        invariant View() == FinishAll(old(View()), ids - left)
        decreases |left|
      {
        ghost var some: int := Pick(left);
        assert some in left;
        var id :| id in left;
        OneMoreFinished(old(Indexes()), old(View()), ids - left, id);
        StartedIsNoStray(Indexes(), View(), id);
        Finish(id, Sent);
        assert ids - left + {id} == ids - (left - {id});
        left := left - {id};
      }
      assert ids - left == ids;
    }

    /** Afterwards the queue is what the plain list is with idle, overdue and excess units gone. */
    method EnforceBudget(now: Time)
      requires Valid()
      modifies this
      ensures Valid()
      ensures View() == VideoModel.EnforceBudget(old(View()), now)
    {
      hide Good;
      GiveUpIdleUnits(now);
      DropOverdueUnits(now);
      DropExcessUnits();
    }

    method DropOverdueUnits(now: Time)
      requires Valid()
      modifies this
      ensures Valid()
      ensures View() == DropOverdue(old(View()), now)
    {
      hide Good;
      var over := IsOverBudget(now);
      while over
        invariant Valid() && over == OverBudget(View().units, now)
        invariant DropOverdue(View(), now) == DropOverdue(old(View()), now)
        decreases |View().units|
      {
        var victim := UnstartedVictim();
        if victim.None? {
          break;
        }
        DropShrinks(View(), victim.value);
        DropUnit(victim.value);
        over := IsOverBudget(now);
      }
    }

    method DropExcessUnits()
      requires Valid()
      modifies this
      ensures Valid()
      ensures View() == DropExcess(old(View()))
    {
      hide Good, DropExcess, Drop, ByteVictim, QueuedBytes;
      BytesAre(Indexes(), View());
      while videoBytes > MAX_QUEUED_VIDEO_BYTES
        invariant Valid() && videoBytes == QueuedBytes(View().units)
        invariant DropExcess(View()) == DropExcess(old(View()))
        decreases |View().units|
      {
        ExcessStep(View());
        var victim := MakeRoom();
        if victim.None? {
          return;
        }
        DropUnit(victim.value);
        BytesAre(Indexes(), View());
      }
      ExcessStep(View());
    }

    /** The unstarted victim or, with none, the oldest started unit. */
    method MakeRoom() returns (victim: Option<int>)
      requires Valid()
      modifies `strays
      ensures Valid()
      ensures victim == ByteVictim(View().units)
      ensures victim.Some? ==> InFrontIfStray(Indexes(), victim.value)
    {
      hide Good;
      var oldest := if started == map[] then None else Some(Min(started.Keys));
      victim := UnstartedVictim();
      PartsAre(Indexes(), View());
      if victim.None? {
        victim := oldest;
        if victim.Some? {
          StartedIsNoStray(Indexes(), View(), victim.value);
        }
      }
    }

    /** Looks at one unit only: the plain list says why that is enough. */
    method IsOverBudget(now: Time) returns (over: bool)
      requires Valid()
      ensures over == OverBudget(View().units, now)
    {
      hide Good;
      PartsAre(Indexes(), View());
      over := waiting != map[] && now - waiting[Min(waiting.Keys)].arrived > VIDEO_BUDGET;
    }

    /** Keeps a track's history just if it was active meanwhile or has a unit queued. */
    method ForgetQuietTracks()
      requires Valid()
      modifies `history, `activeTracks
      ensures Valid()
      ensures View() == VideoModel.ForgetQuietTracks(old(View()))
    {
      hide Good;
      ForgetIsGood(Indexes(), View());
      var queued := QueuedTracks(started) + QueuedTracks(waiting);
      history := map m | m in history && (m in activeTracks || m in queued) :: history[m];
      activeTracks := {};
    }

    /** Audio drains first; then the oldest video unit that holds packets is served. */
    method Pop() returns (bytes: Option<Bytes>)
      requires Valid() && audio.Valid()
      modifies this, audio
      ensures Valid() && audio.Valid()
      ensures old(audio.len) > 0 ==>
                var (rest, served) := PopTurn(old(audio.View()));
                && served.Some? && bytes == Some(served.value.1) && audio.View() == rest
                && View() == old(View()).(stats := CountForwarded(old(stats), served.value.0))
      ensures old(audio.len) == 0 ==>
                (View(), bytes) == VideoModel.Pop(old(View())) && audio.View() == old(audio.View())
    {
      hide Good;
      var heard := audio.Pop();
      if heard.Some? {
        var (mediaId, packet) := heard.value;
        OthersDontMatter(Indexes(), View(), View().(stats := CountForwarded(stats, mediaId)));
        stats := CountForwarded(stats, mediaId);
        return Some(packet);
      }
      bytes := PopVideo();
    }

    /** Starts the first waiting unit. */
    method StartFirst(id: int)
      requires Valid() && sending == {} && waiting != map[] && id == Min(waiting.Keys)
      modifies this
      ensures Valid() && id in View().units
      ensures View() == Start(old(View()), id).(stats := PopStats(old(View()), id))
    {
      hide Good;
      StartingIsGood(Indexes(), View(), id);
      var unit := waiting[id];
      SkipStraysTo(id);
      if !unit.stray && !unit.copy {
        stats := CountForwarded(stats, unit.mediaId);
      }
      waiting := waiting - {id};
      started := started[id := unit.(started := true)];
      sending := sending + {id};
    }

    method SkipStraysTo(id: int)
      modifies `strays
      ensures strays == StraysAfter(old(strays), id)
    {
      while strays != [] && strays[0] <= id
        invariant StraysAfter(strays, id) == StraysAfter(old(strays), id)
        decreases |strays|
      {
        strays := strays[1..];
      }
    }

    /** Serves the first packet of a started unit, which leaves once it is complete and sent. */
    method ServeFrom(id: int) returns (bytes: Option<Bytes>)
      requires Valid() && id in View().units && View().units[id].started && View().units[id].packets != []
      modifies this
      ensures Valid()
      ensures bytes == Some(old(View()).units[id].packets[0])
      ensures var served := Serve(old(View()), id);
              View() == if served.units[id].packets == [] && served.units[id].complete then VideoModel.Finish(served, id, Sent) else served
    {
      hide Good;
      UnitIs(Indexes(), View(), id);
      ServeIsGood(Indexes(), View(), id);
      var unit := started[id];
      bytes := Some(unit.packets[0]);
      unit := unit.(packets := unit.packets[1..]);
      videoBytes := videoBytes - |bytes.value.content|;
      started := started[id := unit];
      if unit.packets != [] {
        sending := sending + {id};
      } else {
        sending := sending - {id};
      }
      if unit.packets == [] && unit.complete {
        StartedIsNoStray(Indexes(), View(), id);
        Finish(id, Sent);
      }
    }

    method PopVideo() returns (bytes: Option<Bytes>)
      requires Valid()
      modifies this
      ensures Valid()
      ensures (View(), bytes) == VideoModel.Pop(old(View()))
    {
      NextIs(Indexes(), View());
      var id;
      if sending != {} {
        id := Min(sending);
        PopIs(View(), id);
      } else if waiting != map[] {
        id := Min(waiting.Keys);
        PopIs(View(), id);
        StartFirst(id);
      } else {
        return None;
      }
      bytes := ServeFrom(id);
    }
  }
}
