/** In which order units leave for want of time or room, and what is forgotten. */
module VideoBudget {
  import opened Collections
  import opened VideoModel
  import opened VideoInvariants
  import opened VideoTheorems

  // ---- Waiting units -----------------------------------------------------------------------

  /** Of two waiting units, `i` has to go before `j`: strays before others, and then the one that came
      first. */
  ghost predicate GoesBefore(units: map<int, VideoUnit>, i: int, j: int) {
    && i in units && j in units && !units[i].started && !units[j].started
    && if units[i].stray == units[j].stray then i < j else units[i].stray
  }

  lemma VictimGoesFirst(v: Video, i: int, j: int)
    requires GoesBefore(v.units, i, j) && UnstartedVictim(v.units).Some?
    ensures var victim := UnstartedVictim(v.units).value;
      victim in v.units && !v.units[victim].started && victim != j
      && (victim != i ==> GoesBefore(Drop(v, victim).units, i, j))
  {
    var victim := UnstartedVictim(v.units).value;
    assert i in Waiting(v.units) && j in Waiting(v.units);
    assert v.units[i].stray ==> i in WaitingStrays(v.units);
    assert v.units[j].stray ==> j in WaitingStrays(v.units);
    assert WaitingStrays(v.units) != {} ==> Min(WaitingStrays(v.units)) in WaitingStrays(v.units);
    assert Min(Waiting(v.units)) in Waiting(v.units);
    if victim != i && victim != j {
      DropShrinks(v, victim);
      DropLeaves(v, victim);
      var w := Drop(v, victim).units;
      assert i in w && j in w;
      assert w[i].(copy := false) == v.units[i].(copy := false) && w[j].(copy := false) == v.units[j].(copy := false);
    }
  }

  lemma {:induction false} OverdueInOrder(v: Video, now: Time, i: int, j: int)
    requires GoesBefore(v.units, i, j)
    ensures j !in DropOverdue(v, now).units ==> i !in DropOverdue(v, now).units
    ensures j in DropOverdue(v, now).units && i in DropOverdue(v, now).units ==> GoesBefore(DropOverdue(v, now).units, i, j)
    decreases |v.units|
  {
    hide Drop, UnstartedVictim, OverBudget;
    if OverBudget(v.units, now) && UnstartedVictim(v.units).Some? {
      var victim := UnstartedVictim(v.units).value;
      VictimGoesFirst(v, i, j);
      DropShrinks(v, victim);
      if victim == i {
        DropOverdueLeaves(Drop(v, victim), now);
      } else {
        OverdueInOrder(Drop(v, victim), now, i, j);
      }
    }
  }

  lemma {:induction false} ExcessInOrder(v: Video, i: int, j: int)
    requires GoesBefore(v.units, i, j)
    ensures j !in DropExcess(v).units ==> i !in DropExcess(v).units
    decreases |v.units|
  {
    hide Drop, UnstartedVictim, QueuedBytes;
    if QueuedBytes(v.units) > MAX_QUEUED_VIDEO_BYTES && ByteVictim(v.units).Some? {
      var victim := ByteVictim(v.units).value;
      SomeVictim(v, i);
      VictimGoesFirst(v, i, j);
      DropShrinks(v, victim);
      if victim == i {
        DropExcessLeaves(Drop(v, victim));
      } else {
        ExcessInOrder(Drop(v, victim), i, j);
      }
    }
  }

  lemma SomeVictim(v: Video, i: int)
    requires i in v.units && !v.units[i].started
    ensures UnstartedVictim(v.units).Some?
  {
    assert i in Waiting(v.units);
  }

  lemma GivingUpKeepsOrder(v: Video, now: Time, i: int, j: int)
    requires GoesBefore(v.units, i, j)
    ensures GoesBefore(GiveUpIdleUnits(v, now).units, i, j)
  {
  }

  /** Enforcing the budget never drops a waiting unit and leaves one that has to go before it. */
  lemma WaitingUnitsGoInOrder(v: Video, now: Time, i: int, j: int)
    requires GoesBefore(v.units, i, j) && j !in EnforceBudget(v, now).units
    ensures i !in EnforceBudget(v, now).units
  {
    var kept := GiveUpIdleUnits(v, now);
    var timely := DropOverdue(kept, now);
    GivingUpKeepsOrder(v, now, i, j);
    OverdueInOrder(kept, now, i, j);
    DropExcessLeaves(timely);
    if j in timely.units && i in timely.units {
      ExcessInOrder(timely, i, j);
    }
  }

  /** For the time alone, a waiting unit that is no stray is dropped only if it has waited too long
      itself. */
  lemma {:induction false} OnlyTheOverdueGo(v: Video, now: Time, id: int)
    requires id in v.units && !v.units[id].started && !v.units[id].stray && id !in DropOverdue(v, now).units
    ensures now - v.units[id].arrived > 150_000_000
    decreases |v.units|
  {
    var victim := UnstartedVictim(v.units).value;
    assert id in Waiting(v.units);
    DropShrinks(v, victim);
    DropLeaves(v, victim);
    if victim == id {
      assert id !in WaitingStrays(v.units);
    } else {
      assert id in Drop(v, victim).units;
      OnlyTheOverdueGo(Drop(v, victim), now, id);
    }
  }

  /** For the room alone, no more units are dropped than has to be: the last one to go was one too
      many. */
  lemma {:induction false} NoMoreGoThanMust(v: Video, id: int)
    requires id in v.units && id !in DropExcess(v).units
    ensures exists last :: last in v.units && last !in DropExcess(v).units
              && QueuedBytes(DropExcess(v).units) + Length(v.units[last].packets) > 2_343_750
    decreases |v.units|
  {
    hide ByteVictim, QueuedBytes, Length;
    ExcessStep(v);
    var victim := ByteVictim(v.units).value;
    var w := Drop(v, victim);
    DropShrinks(v, victim);
    DropLeaves(v, victim);
    DropExcessLeaves(w);
    BytesLeave(v, victim);
    if DropExcess(w) == w {
      assert victim in v.units && victim !in DropExcess(v).units;
    } else {
      ExcessStep(w);
      var next := ByteVictim(w.units).value;
      DropShrinks(w, next);
      DropExcessLeaves(Drop(w, next));
      NoMoreGoThanMust(w, next);
      var last :| last in w.units && last !in DropExcess(w).units
        && QueuedBytes(DropExcess(w).units) + Length(w.units[last].packets) > 2_343_750;
      assert last in v.units && w.units[last].(copy := false) == v.units[last].(copy := false);
    }
  }

  lemma BytesLeave(v: Video, id: int)
    requires id in v.units
    ensures QueuedBytes(Drop(v, id).units) + Length(v.units[id].packets) == QueuedBytes(v.units)
  {
    var w := Drop(v, id).units;
    DropShrinks(v, id);
    DropLeaves(v, id);
    forall k | k in Sizes(w) ensures Sizes(w)[k] == Sizes(v.units)[k] {
      assert w[k].(copy := false) == v.units[k].(copy := false);
    }
    SameMap(Sizes(w), Sizes(v.units) - {id});
    TotalWithout(Sizes(v.units), id);
  }

  // ---- Started units -----------------------------------------------------------------------

  lemma {:induction false} StartedInOrder(v: Video, i: int, j: int)
    requires i < j && i in v.units && j in v.units && v.units[i].started && v.units[j].started
    ensures j !in DropExcess(v).units ==> i !in DropExcess(v).units
    decreases |v.units|
  {
    hide QueuedBytes;
    if QueuedBytes(v.units) > MAX_QUEUED_VIDEO_BYTES && ByteVictim(v.units).Some? {
      var victim := ByteVictim(v.units).value;
      var w := Drop(v, victim);
      DropShrinks(v, victim);
      DropLeaves(v, victim);
      assert i in Started(v.units) && j in Started(v.units) && victim != j;
      if victim == i {
        DropExcessLeaves(w);
      } else {
        assert w.units[i].(copy := false) == v.units[i].(copy := false) && w.units[j].(copy := false) == v.units[j].(copy := false);
        StartedInOrder(w, i, j);
      }
    }
  }

  /** Of two started units that hold packets, the one that came first is dropped first. */
  lemma StartedUnitsGoInOrder(v: Video, now: Time, i: int, j: int)
    requires i < j && i in v.units && j in v.units && v.units[i].started && v.units[j].started
    requires v.units[i].packets != [] && v.units[j].packets != [] && j !in EnforceBudget(v, now).units
    ensures i !in EnforceBudget(v, now).units
  {
    var kept := GiveUpIdleUnits(v, now);
    var timely := DropOverdue(kept, now);
    OverdueSparesStarted(kept, now);
    assert i in Started(kept.units) && j in Started(kept.units);
    assert i in Started(timely.units) && j in Started(timely.units);
    StartedInOrder(timely, i, j);
  }

  /** A check that is due gives up exactly the started units that hold nothing and had no fragment for
      more than a second. Their starts are sent, and the next check is a tenth of a second away. One
      that isn't due changes nothing. */
  lemma IdleUnitsAreGivenUp(v: Video, now: Time, id: int, m: MediaId, s: Seq)
    ensures var w := GiveUpIdleUnits(v, now);
      var due := v.nextIdleCheck.None? || v.nextIdleCheck.value <= now;
      && w.nextIdleCheck == (if due then Some(now + 100_000_000) else v.nextIdleCheck)
      && (id in v.units ==>
            var u := v.units[id];
            id in w.units <==> !(due && u.started && u.packets == [] && now - u.lastFragment > 1_000_000_000))
      && (id in w.units ==> id in v.units && w.units[id] == v.units[id])
      && (s in FatesOf(v.history, m) <==> s in FatesOf(w.history, m))
      && (s in FatesOf(v.history, m) ==>
            var fate := FatesOf(v.history, m)[s];
            FatesOf(w.history, m)[s] == if fate.Queued? && fate.id in v.units && fate.id !in w.units then Sent else fate)
  {
  }

  // ---- Forgetting --------------------------------------------------------------------------

  predicate Concerns(op: Op, m: MediaId) {
    match op
    case PushOp(p, _) => p.mediaId == m
    case LoseOp(lost) => lost.mediaId == m
    case _ => false
  }

  lemma StepKeepsActive(v: Video, op: Op, m: MediaId)
    requires !op.ForgetOp?
    ensures m in Apply(v, op).activeTracks <==> m in v.activeTracks || Concerns(op, m)
  {
    hide Drop, Finish, EnforceBudget, FatesOf, FirstUnit, StrayUnit, Grown, Remember, CountDrop;
    match op
    case PushOp(p, now) => PushKeepsActive(v, p, now, m);
    case LoseOp(lost) => LoseKeepsActive(v, lost, m);
    case PopOp => PopKeepsActive(v);
    case EnforceOp(now) => BudgetKeepsActive(v, now);
  }

  lemma DropKeepsActive(v: Video, id: int)
    ensures Drop(v, id).activeTracks == v.activeTracks
  {
  }

  lemma PushKeepsActive(v: Video, p: Packet, now: Time, m: MediaId)
    ensures m in PushVideo(v, p, now).activeTracks <==> m in v.activeTracks || p.mediaId == m
  {
    hide Drop;
    var noted := v.(activeTracks := v.activeTracks + {p.mediaId});
    forall id ensures Drop(noted, id).activeTracks == noted.activeTracks {
      DropKeepsActive(noted, id);
    }
  }

  lemma LoseKeepsActive(v: Video, lost: Lost, m: MediaId)
    ensures m in Lose(v, lost).activeTracks <==> m in v.activeTracks || lost.mediaId == m
  {
    hide Drop;
    var noted := v.(activeTracks := v.activeTracks + {lost.mediaId});
    forall id ensures Drop(noted, id).activeTracks == noted.activeTracks {
      DropKeepsActive(noted, id);
    }
  }

  lemma PopKeepsActive(v: Video)
    ensures Pop(v).0.activeTracks == v.activeTracks
  {
  }

  lemma BudgetKeepsActive(v: Video, now: Time)
    ensures EnforceBudget(v, now).activeTracks == v.activeTracks
  {
    OverdueKeepsActive(GiveUpIdleUnits(v, now), now);
    ExcessKeepsActive(DropOverdue(GiveUpIdleUnits(v, now), now));
  }

  lemma {:induction false} OverdueKeepsActive(v: Video, now: Time)
    ensures DropOverdue(v, now).activeTracks == v.activeTracks
    decreases |v.units|
  {
    if OverBudget(v.units, now) && UnstartedVictim(v.units).Some? {
      var victim := UnstartedVictim(v.units).value;
      DropShrinks(v, victim);
      OverdueKeepsActive(Drop(v, victim), now);
    }
  }

  lemma {:induction false} ExcessKeepsActive(v: Video)
    ensures DropExcess(v).activeTracks == v.activeTracks
    decreases |v.units|
  {
    if QueuedBytes(v.units) > MAX_QUEUED_VIDEO_BYTES && ByteVictim(v.units).Some? {
      var victim := ByteVictim(v.units).value;
      DropShrinks(v, victim);
      ExcessKeepsActive(Drop(v, victim));
    }
  }

  lemma {:induction false} RunsKeepActive(v: Video, ops: seq<Op>, m: MediaId)
    requires forall i :: 0 <= i < |ops| ==> !ops[i].ForgetOp?
    ensures m in Run(v, ops).activeTracks <==> m in v.activeTracks || exists i :: 0 <= i < |ops| && Concerns(ops[i], m)
    decreases |ops|
  {
    hide Apply, Concerns;
    if ops != [] {
      StepKeepsActive(v, ops[0], m);
      RunsKeepActive(Apply(v, ops[0]), ops[1..], m);
      if exists i :: 0 <= i < |ops| && Concerns(ops[i], m) {
        var i :| 0 <= i < |ops| && Concerns(ops[i], m);
        if i > 0 {
          assert Concerns(ops[1..][i - 1], m);
        }
      }
      if exists i :: 0 <= i < |ops[1..]| && Concerns(ops[1..][i], m) {
        var i :| 0 <= i < |ops[1..]| && Concerns(ops[1..][i], m);
        assert Concerns(ops[i + 1], m);
      }
    }
  }

  /** Of two rounds of forgetting, the second forgets exactly the tracks that nothing came for in
      between and that have nothing queued, and changes nothing else. */
  lemma QuietTracksAreForgotten(v: Video, ops: seq<Op>, m: MediaId)
    requires forall i :: 0 <= i < |ops| ==> !ops[i].ForgetOp?
    ensures var before := Run(ForgetQuietTracks(v), ops);
      var after := ForgetQuietTracks(before);
      && FatesOf(after.history, m) ==
           (if (exists i :: 0 <= i < |ops| && Concerns(ops[i], m)) || (exists id :: id in before.units && before.units[id].mediaId == m)
            then FatesOf(before.history, m) else map[])
      && after.units == before.units && after.stats == before.stats
  {
    RunsKeepActive(ForgetQuietTracks(v), ops, m);
    var before := Run(ForgetQuietTracks(v), ops);
    assert m in QueuedTracks(before.units) <==> exists id :: id in before.units && before.units[id].mediaId == m;
  }
}
