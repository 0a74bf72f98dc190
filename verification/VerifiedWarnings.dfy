/**
 When a pair of server and user is warned of, and under which key it is watched: what each operation
 does to the answers about one pair, and what a whole run makes of them.
 */
module VerifiedWarnings {
  import opened Collections
  import opened VerifiedModel

  // ---- Changes by pair -------------------------------------------------------------------

  ghost predicate OneEach(changed: seq<KeyChange>) {
    forall i, j :: 0 <= i < j < |changed| ==> changed[i].at != changed[j].at
  }

  lemma {:induction false} ChangedIs(changed: seq<KeyChange>, at: SeenAs, key: Key)
    requires OneEach(changed)
    ensures ChangedIn(changed, at) == Some(key) <==> KeyChange(at, key) in changed
    ensures ChangedIn(changed, at) == None <==> forall c :: c in changed ==> c.at != at
  {
    if changed != [] {
      ChangedIs(changed[1..], at, key);
      assert changed == [changed[0]] + changed[1..];
      if changed[0].at == at {
        assert forall c :: c in changed[1..] ==> c.at != at;
      }
    }
  }

  lemma KeptChange(changed: seq<KeyChange>, which: KeyChange -> bool, at: SeenAs)
    requires OneEach(changed)
    ensures var was := ChangedIn(changed, at);
      ChangedIn(Keep(changed, which), at) == if was.Some? && which(KeyChange(at, was.value)) then was else None
  {
    var was, kept := ChangedIn(changed, at), ChangedIn(Keep(changed, which), at);
    KeepHas(changed, which);
    ChangedIs(changed, at, if was.Some? then was.value else 0);
    ChangedIs(Keep(changed, which), at, if was.Some? then was.value else 0);
    if kept.Some? {
      ChangedIs(Keep(changed, which), at, kept.value);
      assert KeyChange(at, kept.value) in changed;
      ChangedIs(changed, at, kept.value);
    }
  }

  lemma {:induction false} ShownChange(changed: seq<KeyChange>, at: SeenAs, key: Key, other: SeenAs)
    ensures var was := ChangedIn(changed, other);
      ChangedIn(Shows(changed, at, key), other) == if was.Some? && other == at then Some(key) else was
  {
    if changed != [] {
      assert Shows(changed, at, key)[1..] == Shows(changed[1..], at, key);
      ShownChange(changed[1..], at, key, other);
    }
  }

  lemma {:induction false} AddedChange(changed: seq<KeyChange>, c: KeyChange, at: SeenAs)
    ensures var was := ChangedIn(changed, at);
      ChangedIn(changed + [c], at) == if was.None? && c.at == at then Some(c.now) else was
  {
    if changed != [] {
      assert (changed + [c])[1..] == changed[1..] + [c];
      AddedChange(changed[1..], c, at);
    }
  }

  // ---- One operation ---------------------------------------------------------------------

  ghost predicate Noted(verified: Verified, at: SeenAs, key: Key) {
    key in verified && at in verified[key].seen
  }

  ghost predicate IsNoted(verified: Verified, at: SeenAs) {
    exists key :: Noted(verified, at, key)
  }

  lemma NotedIs(r: Records, at: SeenAs, key: Key)
    requires RecordsInv(r)
    ensures VerifiedAt(r, at) == Some(key) <==> Noted(r.verified, at, key)
    ensures VerifiedAt(r, at).Some? <==> IsNoted(r.verified, at)
  {
    var seen := SeenBy(r.verified, at);
    forall k ensures k in seen <==> Noted(r.verified, at, k) {
    }
    if seen != {} {
      assert Noted(r.verified, at, Min(seen));
      if Noted(r.verified, at, key) {
        assert Min(seen) == key;
      }
    }
  }

  /** The warning of a pair after one operation, where `was` is the one before. */
  ghost function WarnsOf(verified: Verified, op: Op, at: SeenAs, was: Option<Key>): Option<Key> {
    match op
    case Presented(a, key) =>
      if a == at && key !in verified && IsNoted(verified, at) then Some(key)
      else if a == at && key in verified && at !in verified[key].seen then None
      else was
    case Verify(a, key, _) => if a == at || was == Some(key) then None else was
    case Unverify(key) => if Noted(verified, at, key) then None else was
    case Dismiss(a, _) => if a == at then None else was
  }

  lemma WarnedAtOnce(r: Records, op: Op, at: SeenAs)
    requires RecordsInv(r)
    ensures ChangedIn(AtOnce(r, op).changed, at) == WarnsOf(r.verified, op, at, ChangedIn(r.changed, at))
  {
    hide Keep, ChangedIn, Shows, See, VerifiedAt, Noted;
    assert OneEach(r.changed);
    match op
    case Presented(a, key) => PresentedWarns(r, a, key, at);
    case Verify(a, key, name) => VerifyWarns(r, a, key, name, at);
    case Unverify(key) => UnverifyWarns(r, key, at);
    case Dismiss(a, shown) =>
      SeeLeavesChanges(ForgetChange(r.(verified := ForgetSeen(r.verified, a, None)), a), Watched(r, shown), a);
      KeptChange(r.changed, Elsewhere(a), at);
  }

  lemma PresentedWarns(r: Records, a: SeenAs, key: Key, at: SeenAs)
    requires RecordsInv(r) && OneEach(r.changed)
    ensures ChangedIn(AtOnce(r, Presented(a, key)).changed, at) == WarnsOf(r.verified, Presented(a, key), at, ChangedIn(r.changed, at))
  {
    hide Keep, ChangedIn, Shows, See, VerifiedAt, RecordsInv;
    NotedIs(r, a, key);
    SeeLeavesChanges(r, Some(key), a);
    KeptChange(r.changed, Elsewhere(a), at);
    KeptChange(r.changed, Elsewhere(a), a);
    ShownChange(r.changed, a, key, at);
    AddedChange(Keep(r.changed, Elsewhere(a)), KeyChange(a, key), at);
  }

  lemma VerifyWarns(r: Records, a: SeenAs, key: Key, name: string, at: SeenAs)
    requires RecordsInv(r) && OneEach(r.changed)
    ensures ChangedIn(VerifyIn(r, a, key, name).changed, at) == WarnsOf(r.verified, Verify(a, key, name), at, ChangedIn(r.changed, at))
  {
    hide Keep, ChangedIn, See, RecordsInv;
    var named := r.(verified := r.verified[key := Entry(name, if key in r.verified then r.verified[key].seen else {})]);
    SeeLeavesChanges(named, Some(key), a);
    KeptChange(r.changed, Elsewhere(a), at);
    KeepHas(r.changed, Elsewhere(a));
    KeptChange(Keep(r.changed, Elsewhere(a)), ShowsOther(key), at);
  }

  lemma UnverifyWarns(r: Records, key: Key, at: SeenAs)
    requires RecordsInv(r) && OneEach(r.changed)
    ensures ChangedIn(UnverifyIn(r, key).changed, at) == WarnsOf(r.verified, Unverify(key), at, ChangedIn(r.changed, at))
  {
    hide Keep, ChangedIn, RecordsInv;
    if key in r.verified {
      KeptChange(r.changed, NotSeen(r.verified[key].seen), at);
    }
  }

  /** What each operation does to the warning of a pair. Presenting an unverified key where a verified
      one is noted warns of it, and presenting a verified one ends the warning unless it is the one
      noted. Verifying ends the warnings of that pair and of that key, taking a key off the verified
      ones those at its pairs, and dismissing the one of its pair. All other warnings stay. */
  lemma WarnedExactly(s: Store, op: Op, at: SeenAs)
    requires RecordsInv(s.records) && RecordsInv(Written(s))
    ensures ChangedAt(Later(s, op), at) == WarnsOf(s.records.verified, op, at, ChangedAt(s, at))
  {
    hide Later, AtOnce, RecordsInv, WarnsOf;
    LaterIsAtOnce(s, op);
    ChangedLatest(s.records.changed, s.shownSince, at);
    ChangedLatest(Later(s, op).records.changed, Later(s, op).shownSince, at);
    WarnedAtOnce(Written(s), op, at);
  }

  /** Where pairs are noted after one operation. */
  ghost predicate NotesAs(verified: Verified, op: Op, at: SeenAs, key: Key) {
    match op
    case Presented(a, k) =>
      if a == at && k in verified then key == k && (at in verified[k].seen || |verified[k].seen| < 256)
      else Noted(verified, at, key)
    case Verify(a, k, _) =>
      if a == at then key == k && (k in verified ==> at in verified[k].seen || |verified[k].seen| < 256)
      else Noted(verified, at, key)
    case Unverify(k) => key != k && Noted(verified, at, key)
    case Dismiss(a, shown) =>
      if a == at then shown == Some(key) && key in verified && |verified[key].seen - {at}| < 256
      else Noted(verified, at, key)
  }

  /** What noting a pair with one key does to all keys. */
  lemma SeeNotes(r: Records, k: Key, a: SeenAs, at: SeenAs, key: Key)
    ensures var t := See(r, k, a).verified;
      && (key in t <==> key in r.verified)
      && (key in t ==> t[key].name == r.verified[key].name)
      && (Noted(t, at, key) <==>
            if a == at then key == k && k in r.verified && (at in r.verified[k].seen || |r.verified[k].seen| < 256)
            else Noted(r.verified, at, key))
  {
  }

  lemma PresentedNotes(r: Records, a: SeenAs, k: Key, at: SeenAs, key: Key)
    requires RecordsInv(r)
    ensures var t := AtOnce(r, Presented(a, k)).verified;
      && (Noted(t, at, key) <==> NotesAs(r.verified, Presented(a, k), at, key))
      && (key in t <==> key in r.verified) && (key in t ==> t[key].name == r.verified[key].name)
  {
    hide See, VerifiedAt, ChangedIn, Shows, Keep;
    NotedIs(r, a, k);
    SeeNotes(r, k, a, at, key);
  }

  lemma VerifyNotes(r: Records, a: SeenAs, k: Key, name: string, at: SeenAs, key: Key)
    ensures var t := VerifyIn(r, a, k, name).verified;
      && (Noted(t, at, key) <==> NotesAs(r.verified, Verify(a, k, name), at, key))
      && (key in t <==> key == k || key in r.verified) && (key in t ==> t[key].name == if key == k then name else r.verified[key].name)
  {
    hide See, Keep;
    SeeNotes(r.(verified := r.verified[k := Entry(name, if k in r.verified then r.verified[k].seen else {})]), k, a, at, key);
  }

  lemma DismissNotes(r: Records, a: SeenAs, shown: Option<Key>, at: SeenAs, key: Key)
    ensures var t := DismissIn(r, a, Watched(r, shown)).verified;
      && (Noted(t, at, key) <==> NotesAs(r.verified, Dismiss(a, shown), at, key))
      && (key in t <==> key in r.verified) && (key in t ==> t[key].name == r.verified[key].name)
  {
    hide See, Keep;
    var forgotten := ForgetChange(r.(verified := ForgetSeen(r.verified, a, None)), a);
    if shown.Some? {
      SeeNotes(forgotten, shown.value, a, at, key);
    }
  }

  lemma NotedAtOnce(r: Records, op: Op, at: SeenAs, key: Key)
    requires RecordsInv(r)
    ensures var t := AtOnce(r, op).verified;
      && (Noted(t, at, key) <==> NotesAs(r.verified, op, at, key))
      && (key in t <==> (op.Verify? && op.key == key) || (key in r.verified && !(op.Unverify? && op.key == key)))
      && (key in t ==> t[key].name == if op.Verify? && op.key == key then op.name else r.verified[key].name)
  {
    hide RecordsInv, VerifyIn, DismissIn, SeeVerified, NoteChange, Keep, ChangedIn, Shows, VerifiedAt;
    match op
    case Presented(a, k) => PresentedNotes(r, a, k, at, key);
    case Verify(a, k, name) => VerifyNotes(r, a, k, name, at, key);
    case Unverify(k) =>
    case Dismiss(a, shown) => DismissNotes(r, a, shown, at, key);
  }

  /** Where each operation leaves a pair noted. Presenting a verified key moves the pair to that key and
      verifying one does too, unless that key has all the pairs it may have: then the pair is noted
      with no key. Dismissing keeps it noted under the key shown, if that one is verified, and
      otherwise no more. */
  lemma NotedExactly(s: Store, op: Op, at: SeenAs, key: Key)
    requires RecordsInv(s.records) && RecordsInv(Written(s))
    ensures Noted(Later(s, op).records.verified, at, key) <==> NotesAs(s.records.verified, op, at, key)
  {
    hide Later, AtOnce, RecordsInv, Noted, NotesAs;
    LaterIsAtOnce(s, op);
    NotedAtOnce(Written(s), op, at, key);
  }

  /** A key is verified from when the user verifies it, under the name given last, until they take it
      off again. */
  lemma NamedExactly(s: Store, op: Op, key: Key)
    requires RecordsInv(s.records) && RecordsInv(Written(s))
    ensures var before, after := s.records.verified, Later(s, op).records.verified;
      && (key in after <==> (op.Verify? && op.key == key) || (key in before && !(op.Unverify? && op.key == key)))
      && (key in after ==> after[key].name == if op.Verify? && op.key == key then op.name else before[key].name)
  {
    hide Later, AtOnce, RecordsInv, Noted, NotesAs;
    LaterIsAtOnce(s, op);
    NotedAtOnce(Written(s), op, (0, 0), key);
  }

  /** The list the user sees has each verified key, its name, and just the servers it is noted on. */
  lemma ListsExactly(r: Records, key: Key, server: Server)
    ensures key in ListOf(r) <==> key in r.verified
    ensures key in r.verified ==>
      && ListOf(r)[key].name == r.verified[key].name
      && (server in ListOf(r)[key].servers <==> exists user :: Noted(r.verified, (server, user), key))
  {
    if key in r.verified && exists user :: Noted(r.verified, (server, user), key) {
      var user :| Noted(r.verified, (server, user), key);
      assert (server, user).0 == server;
    }
  }

  // ---- Whole runs ------------------------------------------------------------------------

  function Before(loaded: Records, ops: seq<Op>, k: nat): Store
    requires k <= |ops|
  {
    RunLater(Store(loaded, map[]), ops[..k])
  }

  /** The user is shown `key` there instead of a verified key. */
  ghost predicate Swaps(s: Store, op: Op, at: SeenAs, key: Key) {
    op == Presented(at, key) && key !in s.records.verified && IsNoted(s.records.verified, at)
  }

  /** The operation leaves the warning of `key` at the pair alone. */
  ghost predicate Leaves(s: Store, op: Op, at: SeenAs, key: Key) {
    match op
    case Presented(a, k) => a == at ==> if k in s.records.verified then at in s.records.verified[k].seen else k == key
    case Verify(a, k, _) => a != at && k != key
    case Unverify(k) => !Noted(s.records.verified, at, k)
    case Dismiss(a, _) => a != at
  }

  /** The warning was there from the start, or came with a swap, and nothing has touched it since. */
  ghost predicate IsWarnedOf(loaded: Records, ops: seq<Op>, at: SeenAs, key: Key) {
    exists i :: 0 <= i <= |ops| && StandsSince(loaded, ops, i, at, key)
  }

  ghost predicate StandsSince(loaded: Records, ops: seq<Op>, i: nat, at: SeenAs, key: Key)
    requires i <= |ops|
  {
    && (if i == 0 then ChangedIn(loaded.changed, at) == Some(key) else Swaps(Before(loaded, ops, i - 1), ops[i - 1], at, key))
    && forall j :: i <= j < |ops| ==> Leaves(Before(loaded, ops, j), ops[j], at, key)
  }

  lemma {:induction false} RunsJoin(s: Store, first: seq<Op>, second: seq<Op>)
    ensures RunLater(s, first + second) == RunLater(RunLater(s, first), second)
    decreases |first|
  {
    hide Later;
    if first == [] {
      assert first + second == second;
    } else {
      assert (first + second)[1..] == first[1..] + second;
      RunsJoin(Later(s, first[0]), first[1..], second);
    }
  }

  lemma Next(loaded: Records, ops: seq<Op>, k: nat)
    requires k < |ops|
    ensures Before(loaded, ops, k + 1) == Later(Before(loaded, ops, k), ops[k])
  {
    hide Later;
    assert ops[..k + 1] == ops[..k] + [ops[k]];
    RunsJoin(Store(loaded, map[]), ops[..k], [ops[k]]);
    assert [ops[k]][1..] == [];
  }

  /** One more operation. */
  lemma WarnedNext(s: Store, op: Op, at: SeenAs, key: Key)
    requires RecordsInv(s.records) && RecordsInv(Written(s))
    ensures ChangedAt(Later(s, op), at) == Some(key) <==>
      Swaps(s, op, at, key) || (ChangedAt(s, at) == Some(key) && Leaves(s, op, at, key))
  {
    hide Later, RecordsInv, ChangedAt, ChangesFit;
    WarnedExactly(s, op, at);
    if ChangedAt(s, at) == Some(key) {
      WarnedIsNoted(s, at, key);
    }
  }

  lemma WarnedIsNoted(s: Store, at: SeenAs, key: Key)
    requires RecordsInv(s.records) && RecordsInv(Written(s)) && ChangedAt(s, at) == Some(key)
    ensures IsNoted(s.records.verified, at)
  {
    ChangedLatest(s.records.changed, s.shownSince, at);
    ChangedIs(Written(s).changed, at, key);
    EachFits(Written(s), KeyChange(at, key));
    var k :| k in s.records.verified && at in s.records.verified[k].seen;
    assert Noted(s.records.verified, at, k);
  }

  lemma {:induction false} WarnedUntil(loaded: Records, ops: seq<Op>, k: nat, at: SeenAs, key: Key)
    requires RecordsInv(loaded) && k <= |ops|
    ensures ChangedAt(Before(loaded, ops, k), at) == Some(key) <==> IsWarnedOf(loaded, ops[..k], at, key)
  {
    hide RecordsInv, Leaves, Swaps, ChangedAt, Later;
    if k == 0 {
      LoadedChange(loaded, at);
      assert IsWarnedOf(loaded, ops[..0], at, key) <==> StandsSince(loaded, ops[..0], 0, at, key);
    } else {
      WarnedUntil(loaded, ops, k - 1, at, key);
      RecordsHold(loaded, ops[..k - 1]);
      Next(loaded, ops, k - 1);
      WarnedNext(Before(loaded, ops, k - 1), ops[k - 1], at, key);
      StandsLonger(loaded, ops[..k - 1], ops[k - 1], at, key);
      assert ops[..k] == ops[..k - 1] + [ops[k - 1]];
    }
  }

  lemma LoadedChange(loaded: Records, at: SeenAs)
    ensures ChangedAt(Store(loaded, map[]), at) == ChangedIn(loaded.changed, at)
  {
  }

  lemma StandsLonger(loaded: Records, ops: seq<Op>, op: Op, at: SeenAs, key: Key)
    ensures IsWarnedOf(loaded, ops + [op], at, key) <==>
      Swaps(RunLater(Store(loaded, map[]), ops), op, at, key)
      || (IsWarnedOf(loaded, ops, at, key) && Leaves(RunLater(Store(loaded, map[]), ops), op, at, key))
  {
    hide Leaves, Swaps, RunLater;
    var more := ops + [op];
    assert more[..|ops|] == ops;
    forall k | 0 <= k <= |ops| ensures Before(loaded, more, k) == Before(loaded, ops, k) {
      assert more[..k] == ops[..k];
    }
    forall i | 0 <= i <= |ops|
      ensures StandsSince(loaded, more, i, at, key) <==> StandsSince(loaded, ops, i, at, key) && Leaves(Before(loaded, more, |ops|), op, at, key)
    {
      assert more[|ops|] == op;
    }
    assert StandsSince(loaded, more, |more|, at, key) <==> Swaps(Before(loaded, more, |ops|), op, at, key);
  }

  /** Whatever was loaded and whatever happens, a pair is warned of a key exactly if the key was shown
      there, unverified, in place of a verified one, or the warning was loaded, and since then no
      other unverified key was shown there, no verified one but the one noted, neither the pair nor
      the key was verified, the key noted there stayed verified, and the user didn't dismiss it. */
  lemma WarningsLast(loaded: Records, ops: seq<Op>, at: SeenAs, key: Key)
    requires RecordsInv(loaded)
    ensures ChangedAt(RunLater(Store(loaded, map[]), ops), at) == Some(key) <==> IsWarnedOf(loaded, ops, at, key)
  {
    assert ops[..|ops|] == ops;
    WarnedUntil(loaded, ops, |ops|, at, key);
  }
}
