/** What every step of the video queue keeps, and what whole runs of it guarantee. */
module VideoInvariants {
  import opened Collections
  import opened VideoModel

  ghost predicate Numbered(v: Video) {
    forall id :: id in v.units ==> v.units[id].id == id && id < v.nextId
  }

  /** A unit that has begun to be sent was queued before every one that has not. */
  ghost predicate StartedFirst(units: map<int, VideoUnit>) {
    forall i, j :: i in units && j in units && units[i].started && !units[j].started ==> i < j
  }

  ghost predicate WaitingHold(units: map<int, VideoUnit>) {
    forall id :: id in units && !units[id].started ==> units[id].packets != []
  }

  ghost predicate IsQueuedAs(units: map<int, VideoUnit>, id: int, m: MediaId, s: Seq) {
    id in units && !units[id].stray && units[id].mediaId == m && units[id].firstSeq == s
  }

  ghost predicate FateIsTrue(v: Video, m: MediaId, s: Seq) {
    var fates := FatesOf(v.history, m);
    s in fates && fates[s].Queued? ==> IsQueuedAs(v.units, fates[s].id, m, s)
  }

  /** A fate that points at a queued unit names one of that track and first sequence number. */
  ghost predicate FatesAreTrue(v: Video) {
    forall m: MediaId, s: Seq :: FateIsTrue(v, m, s)
  }

  ghost predicate HistoryIsShort(v: Video) {
    forall m: MediaId :: |FatesOf(v.history, m)| <= HISTORY
  }

  ghost predicate Inv(v: Video) {
    Numbered(v) && StartedFirst(v.units) && WaitingHold(v.units) && FatesAreTrue(v) && HistoryIsShort(v)
  }

  /** Of the starts of a track as many are kept as may be, and none that is older than one let go. */
  lemma {:induction false} NewestKeepsNewest(fates: Fates)
    ensures |Newest(fates)| == if |fates| <= 32 then |fates| else 32
    ensures forall s :: s in Newest(fates) ==> s in fates && Newest(fates)[s] == fates[s]
    ensures forall s, t :: s in Newest(fates) && t in fates && t !in Newest(fates) ==> t < s
    ensures |fates| <= HISTORY ==> Newest(fates) == fates
  {
    if |fates| > HISTORY {
      var first := Min(fates.Keys);
      assert (fates - {first}).Keys == fates.Keys - {first};
      NewestKeepsNewest(fates - {first});
    }
  }

  lemma FinishKeepsInv(v: Video, id: int, fate: Fate)
    requires Inv(v) && !fate.Queued?
    ensures Inv(Finish(v, id, fate))
  {
    if id in v.units {
      var w := Finish(v, id, fate);
      forall m: MediaId, s: Seq ensures FateIsTrue(w, m, s) {
        assert FateIsTrue(v, m, s);
      }
      forall m: MediaId ensures |FatesOf(w.history, m)| <= HISTORY {
        FinishKeepsLength(v, id, fate, m);
      }
    }
  }

  lemma FinishKeepsLength(v: Video, id: int, fate: Fate, m: MediaId)
    ensures FatesOf(Finish(v, id, fate).history, m).Keys == FatesOf(v.history, m).Keys
    ensures |FatesOf(Finish(v, id, fate).history, m)| == |FatesOf(v.history, m)|
  {
    assert FatesOf(Finish(v, id, fate).history, m).Keys == FatesOf(v.history, m).Keys;
  }

  lemma DropKeepsInv(v: Video, id: int)
    requires Inv(v)
    ensures Inv(Drop(v, id))
  {
    if id in v.units {
      FinishKeepsInv(v, id, Dropped);
      var left := Finish(v, id, Dropped);
      var w := Drop(v, id);
      forall m: MediaId, s: Seq ensures FateIsTrue(w, m, s) {
        assert FateIsTrue(left, m, s);
      }
      assert w.history == left.history;
    }
  }

  lemma RememberIsTrue(v: Video, w: Video, m: MediaId, s: Seq, fate: Fate)
    requires FatesAreTrue(v) && HistoryIsShort(v)
    requires w.history == v.history[m := Remember(FatesOf(v.history, m), s, fate)]
    requires forall id, n, t :: IsQueuedAs(v.units, id, n, t) ==> IsQueuedAs(w.units, id, n, t)
    requires fate.Queued? ==> IsQueuedAs(w.units, fate.id, m, s)
    ensures FatesAreTrue(w) && HistoryIsShort(w)
  {
    NewestKeepsNewest(FatesOf(v.history, m)[s := fate]);
    forall n: MediaId, t: Seq ensures FateIsTrue(w, n, t) {
      assert FateIsTrue(v, n, t);
    }
    forall n: MediaId ensures |FatesOf(w.history, n)| <= HISTORY {
      assert n != m ==> FatesOf(w.history, n) == FatesOf(v.history, n);
    }
  }

  lemma PushFirstKeepsInv(v: Video, p: Packet, now: Time)
    requires Inv(v)
    ensures Inv(PushFirst(v, p, now))
  {
    RememberIsTrue(v, PushFirst(v, p, now), p.mediaId, p.seqNo, Queued(v.nextId));
  }

  lemma PushFragmentKeepsInv(v: Video, p: Packet, now: Time)
    requires Inv(v)
    ensures Inv(PushFragment(v, p, now))
  {
    var w := PushFragment(v, p, now);
    var start := UnitStart(FatesOf(v.history, p.mediaId), p.seqNo);
    if start.Some? && FatesOf(v.history, p.mediaId)[start.value].Queued? {
      DropKeepsInv(v, FatesOf(v.history, p.mediaId)[start.value].id);
    }
    if w.history == v.history {
      forall m: MediaId, s: Seq ensures FateIsTrue(w, m, s) {
        assert FateIsTrue(v, m, s);
      }
    }
  }

  lemma PushKeepsInv(v: Video, p: Packet, now: Time)
    requires Inv(v)
    ensures Inv(PushVideo(v, p, now))
  {
    var noted := v.(activeTracks := v.activeTracks + {p.mediaId});
    OnlyHistoryAndUnitsMatter(v, noted);
    if p.first {
      PushFirstKeepsInv(noted, p, now);
    } else {
      PushFragmentKeepsInv(noted, p, now);
    }
  }

  lemma OnlyHistoryAndUnitsMatter(v: Video, w: Video)
    requires Inv(v) && w.units == v.units && w.history == v.history && w.nextId == v.nextId
    ensures Inv(w)
  {
    forall m: MediaId, s: Seq ensures FateIsTrue(w, m, s) {
      assert FateIsTrue(v, m, s);
    }
  }

  lemma NoteDroppedKeepsInv(v: Video, m: MediaId, s: Seq)
    requires Inv(v)
    ensures Inv(NoteDropped(v, m, s))
  {
    RememberIsTrue(v, NoteDropped(v, m, s), m, s, Dropped);
  }

  lemma LoseKeepsInv(v: Video, lost: Lost)
    requires Inv(v)
    ensures Inv(Lose(v, lost))
  {
    var noted := v.(activeTracks := v.activeTracks + {lost.mediaId});
    OnlyHistoryAndUnitsMatter(v, noted);
    var fates := FatesOf(noted.history, lost.mediaId);
    var start := UnitStart(fates, lost.seqNo);
    NoteDroppedKeepsInv(noted, lost.mediaId, lost.seqNo);
    if start.Some? {
      NoteDroppedKeepsInv(noted, lost.mediaId, start.value);
      if fates[start.value].Queued? {
        DropKeepsInv(noted, fates[start.value].id);
      }
    }
  }

  lemma GiveUpKeepsInv(v: Video, now: Time)
    requires Inv(v)
    ensures Inv(GiveUpIdleUnits(v, now))
  {
    var w := GiveUpIdleUnits(v, now);
    forall m: MediaId, s: Seq ensures FateIsTrue(w, m, s) {
      assert FateIsTrue(v, m, s);
    }
    forall m: MediaId ensures |FatesOf(w.history, m)| <= HISTORY {
      assert FatesOf(w.history, m).Keys == FatesOf(v.history, m).Keys;
    }
  }

  lemma {:induction false} DropOverdueKeepsInv(v: Video, now: Time)
    requires Inv(v)
    ensures Inv(DropOverdue(v, now))
    decreases |v.units|
  {
    if OverBudget(v.units, now) && UnstartedVictim(v.units).Some? {
      var victim := UnstartedVictim(v.units).value;
      DropShrinks(v, victim);
      DropKeepsInv(v, victim);
      DropOverdueKeepsInv(Drop(v, victim), now);
    }
  }

  lemma {:induction false} DropExcessKeepsInv(v: Video)
    requires Inv(v)
    ensures Inv(DropExcess(v))
    decreases |v.units|
  {
    if QueuedBytes(v.units) > MAX_QUEUED_VIDEO_BYTES && ByteVictim(v.units).Some? {
      var victim := ByteVictim(v.units).value;
      DropShrinks(v, victim);
      DropKeepsInv(v, victim);
      DropExcessKeepsInv(Drop(v, victim));
    }
  }

  lemma PopKeepsInv(v: Video)
    requires Inv(v)
    ensures Inv(Pop(v).0)
  {
    var holding := Holding(v.units);
    if holding != {} {
      var id := Min(holding);
      var u := v.units[id];
      var rest := u.(started := true, packets := u.packets[1..]);
      var served := Pop(v).0;
      var mid := v.(units := v.units[id := rest], stats := served.stats);
      forall m: MediaId, s: Seq ensures FateIsTrue(mid, m, s) {
        assert FateIsTrue(v, m, s);
      }
      assert StartedFirst(mid.units) by {
        forall i, j | i in mid.units && j in mid.units && mid.units[i].started && !mid.units[j].started ensures i < j {
          assert j in holding;
        }
      }
      FinishKeepsInv(mid, id, Sent);
    }
  }

  lemma ForgetKeepsInv(v: Video)
    requires Inv(v)
    ensures Inv(ForgetQuietTracks(v))
  {
    var w := ForgetQuietTracks(v);
    forall m: MediaId, s: Seq ensures FateIsTrue(w, m, s) {
      assert FateIsTrue(v, m, s);
    }
    forall m: MediaId ensures |FatesOf(w.history, m)| <= HISTORY {
      assert |FatesOf(v.history, m)| <= HISTORY;
    }
  }
}
