/**
 The keys a user vouches for, the pairs of server and user they were met at, and the warnings
 where another turned up. The store puts off writing the key that a warning is about now; here
 it is compared with one that writes every presented key at once.
 */
module VerifiedModel {
  import opened Collections

  type Key = int
  type Server = int
  type UserId = int
  type SeenAs = (Server, UserId)

  const MAX_SEEN: nat := 256

  datatype Entry = Entry(name: string, seen: set<SeenAs>)

  /** A warning: at this pair a vouched-for key was met before, and now it is another. */
  datatype KeyChange = KeyChange(at: SeenAs, now: Key)

  type Verified = map<Key, Entry>

  datatype Records = Records(verified: Verified, changed: seq<KeyChange>)

  const NONE: Records := Records(map[], [])

  // ---- Records -------------------------------------------------------------------------

  /** The pair is noted with no key but, if any, the one excepted. */
  function ForgetSeen(verified: Verified, at: SeenAs, except: Option<Key>): Verified {
    map k | k in verified :: if except == Some(k) then verified[k] else verified[k].(seen := verified[k].seen - {at})
  }

  function NoteSeen(verified: Verified, key: Key, at: SeenAs): Verified {
    if key in verified && |verified[key].seen| < MAX_SEEN
    then verified[key := verified[key].(seen := verified[key].seen + {at})] else verified
  }

  /** Afterwards the pair is noted with this key alone, if it is verified and has room for it. */
  function See(r: Records, key: Key, at: SeenAs): Records {
    r.(verified := NoteSeen(ForgetSeen(r.verified, at, Some(key)), key, at))
  }

  function Keep(changed: seq<KeyChange>, which: KeyChange -> bool): seq<KeyChange> {
    if changed == [] then []
    else Keep(changed[..|changed| - 1], which) + if which(changed[|changed| - 1]) then [changed[|changed| - 1]] else []
  }

  function Elsewhere(at: SeenAs): KeyChange -> bool {
    (c: KeyChange) => c.at != at
  }

  function ShowsOther(key: Key): KeyChange -> bool {
    (c: KeyChange) => c.now != key
  }

  function NotSeen(seen: set<SeenAs>): KeyChange -> bool {
    (c: KeyChange) => c.at !in seen
  }

  function ForgetChange(r: Records, at: SeenAs): Records {
    r.(changed := Keep(r.changed, Elsewhere(at)))
  }

  function ChangedIn(changed: seq<KeyChange>, at: SeenAs): Option<Key> {
    if changed == [] then None
    else if changed[0].at == at then Some(changed[0].now)
    else ChangedIn(changed[1..], at)
  }

  // ---- Questions -----------------------------------------------------------------------

  predicate IsVerified(r: Records, key: Key) {
    key in r.verified
  }

  function SeenBy(verified: Verified, at: SeenAs): set<Key> {
    set k | k in verified && at in verified[k].seen
  }

  /** The key a pair is noted with, of which there is at most one. */
  function VerifiedAt(r: Records, at: SeenAs): Option<Key> {
    if SeenBy(r.verified, at) == {} then None else Some(Min(SeenBy(r.verified, at)))
  }

  datatype Identity = Identity(name: string, servers: set<Server>)

  /** For the user's eyes: each key's name, and the servers where it is noted. */
  function ListOf(r: Records): map<Key, Identity> {
    map k | k in r.verified :: Identity(r.verified[k].name, set at | at in r.verified[k].seen :: at.0)
  }

  // ---- Changes -------------------------------------------------------------------------

  datatype Op =
    | Presented(at: SeenAs, key: Key)
    | Verify(at: SeenAs, key: Key, name: string)
    | Unverify(key: Key)
    | Dismiss(at: SeenAs, shown: Option<Key>)

  function VerifyIn(r: Records, at: SeenAs, key: Key, name: string): Records {
    var named := r.(verified := r.verified[key := Entry(name, if key in r.verified then r.verified[key].seen else {})]);
    var seen := ForgetChange(See(named, key, at), at);
    seen.(changed := Keep(seen.changed, ShowsOther(key)))
  }

  function UnverifyIn(r: Records, key: Key): Records {
    if key !in r.verified then r
    else Records(r.verified - {key}, Keep(r.changed, NotSeen(r.verified[key].seen)))
  }

  function DismissIn(r: Records, at: SeenAs, watched: Option<Key>): Records {
    var forgotten := ForgetChange(r.(verified := ForgetSeen(r.verified, at, None)), at);
    if watched.Some? then See(forgotten, watched.value, at) else forgotten
  }

  function Watched(r: Records, shown: Option<Key>): Option<Key> {
    if shown.Some? && IsVerified(r, shown.value) then shown else None
  }

  function NoteChange(r: Records, at: SeenAs, key: Key): Records {
    var forgotten := ForgetChange(r, at);
    forgotten.(changed := forgotten.changed + [KeyChange(at, key)])
  }

  function SeeVerified(r: Records, at: SeenAs, key: Key): Records {
    ForgetChange(See(r, key, at), at)
  }

  // ---- Writing at once -----------------------------------------------------------------

  /** The key a recorded change shows now. */
  function Shows(changed: seq<KeyChange>, at: SeenAs, key: Key): seq<KeyChange> {
    seq(|changed|, i requires 0 <= i < |changed| => if changed[i].at == at then KeyChange(at, key) else changed[i])
  }

  function AtOnce(r: Records, op: Op): Records {
    match op
    case Presented(at, key) =>
      if IsVerified(r, key) then (if VerifiedAt(r, at) == Some(key) then r else SeeVerified(r, at, key))
      else if VerifiedAt(r, at).None? then r
      else if ChangedIn(r.changed, at).Some? then r.(changed := Shows(r.changed, at, key))
      else NoteChange(r, at, key)
    case Verify(at, key, name) => VerifyIn(r, at, key, name)
    case Unverify(key) => UnverifyIn(r, key)
    case Dismiss(at, shown) => DismissIn(r, at, Watched(r, shown))
  }

  // ---- Putting it off ------------------------------------------------------------------

  /** What is written, and for some of the warnings a newer key, which isn't yet. */
  datatype Store = Store(records: Records, shownSince: map<SeenAs, Key>)

  function Latest(c: KeyChange, shownSince: map<SeenAs, Key>): KeyChange {
    if c.at in shownSince then c.(now := shownSince[c.at]) else c
  }

  function AllLatest(changed: seq<KeyChange>, shownSince: map<SeenAs, Key>): seq<KeyChange> {
    seq(|changed|, i requires 0 <= i < |changed| => Latest(changed[i], shownSince))
  }

  /** The records once what was put off is written. */
  function Written(s: Store): Records {
    s.records.(changed := AllLatest(s.records.changed, s.shownSince))
  }

  function ChangedAt(s: Store, at: SeenAs): Option<Key> {
    var written := ChangedIn(s.records.changed, at);
    if written.Some? && at in s.shownSince then Some(s.shownSince[at]) else written
  }

  function Later(s: Store, op: Op): Store {
    match op
    case Presented(at, key) =>
      if IsVerified(s.records, key) then
        (if VerifiedAt(s.records, at) == Some(key) then s else Store(SeeVerified(Written(s), at, key), map[]))
      else if VerifiedAt(s.records, at).None? then s
      else if ChangedIn(s.records.changed, at).Some? then s.(shownSince := s.shownSince[at := key])
      else Store(NoteChange(Written(s), at, key), map[])
    case Verify(at, key, name) => Store(VerifyIn(Written(s), at, key, name), map[])
    case Unverify(key) => Store(UnverifyIn(Written(s), key), map[])
    case Dismiss(at, shown) =>
      Store(DismissIn(Written(s.(shownSince := s.shownSince - {at})), at, Watched(s.records, shown)), map[])
  }

  // ---- It makes no difference ----------------------------------------------------------

  lemma {:induction false} KeepLatest(changed: seq<KeyChange>, shown: map<SeenAs, Key>, at: SeenAs)
    ensures Keep(AllLatest(changed, shown), Elsewhere(at)) == Keep(AllLatest(changed, shown - {at}), Elsewhere(at))
  {
    if changed != [] {
      var shorter, n := changed[..|changed| - 1], |changed| - 1;
      assert AllLatest(changed, shown)[..n] == AllLatest(shorter, shown);
      assert AllLatest(changed, shown - {at})[..n] == AllLatest(shorter, shown - {at});
      KeepLatest(shorter, shown, at);
    }
  }

  lemma NothingPutOff(r: Records)
    ensures Written(Store(r, map[])) == r
  {
    assert AllLatest(r.changed, map[]) == r.changed;
  }

  lemma {:induction false} ChangedLatest(changed: seq<KeyChange>, shown: map<SeenAs, Key>, at: SeenAs)
    ensures ChangedIn(AllLatest(changed, shown), at) ==
      if ChangedIn(changed, at).Some? && at in shown then Some(shown[at]) else ChangedIn(changed, at)
  {
    if changed != [] {
      assert AllLatest(changed, shown)[1..] == AllLatest(changed[1..], shown);
      ChangedLatest(changed[1..], shown, at);
    }
  }

  lemma LatestShows(changed: seq<KeyChange>, shown: map<SeenAs, Key>, at: SeenAs, key: Key)
    ensures AllLatest(changed, shown[at := key]) == Shows(AllLatest(changed, shown), at, key)
  {
  }

  lemma DismissingPutsNothingOff(s: Store, at: SeenAs, watched: Option<Key>)
    ensures DismissIn(Written(s.(shownSince := s.shownSince - {at})), at, watched) == DismissIn(Written(s), at, watched)
  {
    KeepLatest(s.records.changed, s.shownSince, at);
  }

  /** What is put off is just what writing at once would have written by now. */
  lemma LaterIsAtOnce(s: Store, op: Op)
    ensures Written(Later(s, op)) == AtOnce(Written(s), op)
  {
    hide SeeVerified, NoteChange, VerifyIn, UnverifyIn, DismissIn;
    NothingPutOff(Later(s, op).records);
    match op
    case Presented(at, key) =>
      ChangedLatest(s.records.changed, s.shownSince, at);
      LatestShows(s.records.changed, s.shownSince, at, key);
    case Dismiss(at, shown) => DismissingPutsNothingOff(s, at, Watched(s.records, shown));
    case _ =>
  }

  function RunAtOnce(r: Records, ops: seq<Op>): Records
    decreases |ops|
  {
    if ops == [] then r else RunAtOnce(AtOnce(r, ops[0]), ops[1..])
  }

  function RunLater(s: Store, ops: seq<Op>): Store
    decreases |ops|
  {
    if ops == [] then s else RunLater(Later(s, ops[0]), ops[1..])
  }

  lemma {:induction false} RunsAgree(s: Store, ops: seq<Op>)
    ensures Written(RunLater(s, ops)) == RunAtOnce(Written(s), ops)
    decreases |ops|
  {
    hide Written, Later, AtOnce;
    if ops != [] {
      LaterIsAtOnce(s, ops[0]);
      RunsAgree(Later(s, ops[0]), ops[1..]);
    }
  }

  /** After any changes, every question is answered as if each presented key had been written at
      once. */
  lemma PuttingOffIsInvisible(loaded: Records, ops: seq<Op>, key: Key, at: SeenAs)
    ensures var s := RunLater(Store(loaded, map[]), ops);
            var r := RunAtOnce(loaded, ops);
      && IsVerified(s.records, key) == IsVerified(r, key)
      && VerifiedAt(s.records, at) == VerifiedAt(r, at)
      && ChangedAt(s, at) == ChangedIn(r.changed, at)
      && ListOf(s.records) == ListOf(r)
  {
    var s := RunLater(Store(loaded, map[]), ops);
    NothingPutOff(loaded);
    RunsAgree(Store(loaded, map[]), ops);
    ChangedLatest(s.records.changed, s.shownSince, at);
  }

  // ---- What the records keep -----------------------------------------------------------

  /** A pair is seen under at most one verified key. */
  ghost predicate SeenOnce(verified: Verified) {
    forall k, j, at :: k in verified && j in verified && at in verified[k].seen && at in verified[j].seen ==> k == j
  }

  ghost predicate IsSeen(verified: Verified, at: SeenAs) {
    exists k :: k in verified && at in verified[k].seen
  }

  /** No pair has two warnings, each is for a pair noted with some key, and none warns of a
      key that is verified. */
  ghost predicate ChangesFit(r: Records) {
    && (forall i, j :: 0 <= i < j < |r.changed| ==> r.changed[i].at != r.changed[j].at)
    && (forall i :: 0 <= i < |r.changed| ==> IsSeen(r.verified, r.changed[i].at) && r.changed[i].now !in r.verified)
  }

  ghost predicate RecordsInv(r: Records) {
    && SeenOnce(r.verified) && ChangesFit(r)
    && forall k :: k in r.verified ==> |r.verified[k].seen| <= MAX_SEEN
  }

  ghost predicate Bounded(verified: Verified) {
    forall k :: k in verified ==> |verified[k].seen| <= MAX_SEEN
  }

  lemma {:induction false} KeepHas(changed: seq<KeyChange>, which: KeyChange -> bool)
    ensures forall c :: c in Keep(changed, which) <==> c in changed && which(c)
    ensures (forall i, j :: 0 <= i < j < |changed| ==> changed[i].at != changed[j].at) ==>
      forall i, j :: 0 <= i < j < |Keep(changed, which)| ==> Keep(changed, which)[i].at != Keep(changed, which)[j].at
  {
    if changed != [] {
      var shorter, last := changed[..|changed| - 1], changed[|changed| - 1];
      KeepHas(shorter, which);
      assert forall c :: c in changed <==> c in shorter || c == last;
      if forall i, j :: 0 <= i < j < |changed| ==> changed[i].at != changed[j].at {
        forall i | 0 <= i < |Keep(shorter, which)| ensures Keep(shorter, which)[i].at != last.at {
          assert Keep(shorter, which)[i] in shorter;
          var k :| 0 <= k < |shorter| && shorter[k] == Keep(shorter, which)[i];
          assert changed[k].at != changed[|changed| - 1].at;
        }
      }
    }
  }

  lemma ForgetKeeps(verified: Verified, at: SeenAs, except: Option<Key>)
    requires SeenOnce(verified) && Bounded(verified)
    ensures var t := ForgetSeen(verified, at, except);
      && t.Keys == verified.Keys && SeenOnce(t) && Bounded(t)
      && (forall k :: k in t && at in t[k].seen ==> except == Some(k))
      && (forall other: SeenAs :: other != at && IsSeen(verified, other) ==> IsSeen(t, other))
  {
    var t := ForgetSeen(verified, at, except);
    SameSet(t.Keys, verified.Keys);
    forall k | k in t ensures |t[k].seen| <= MAX_SEEN {
      Fewer(t[k].seen, verified[k].seen);
    }
    forall other: SeenAs | other != at && IsSeen(verified, other) ensures IsSeen(t, other) {
      var k :| k in verified && other in verified[k].seen;
      assert k in t && other in t[k].seen;
    }
  }

  lemma NoteKeeps(verified: Verified, key: Key, at: SeenAs)
    requires SeenOnce(verified) && Bounded(verified) && forall k :: k in verified && at in verified[k].seen ==> k == key
    ensures var t := NoteSeen(verified, key, at);
      && t.Keys == verified.Keys && SeenOnce(t) && Bounded(t)
      && (forall other: SeenAs :: IsSeen(verified, other) ==> IsSeen(t, other))
  {
    var t := NoteSeen(verified, key, at);
    SameSet(t.Keys, verified.Keys);
    forall other: SeenAs | IsSeen(verified, other) ensures IsSeen(t, other) {
      var k :| k in verified && other in verified[k].seen;
      assert k in t && other in t[k].seen;
    }
  }

  lemma SeeKeeps(r: Records, key: Key, at: SeenAs)
    requires SeenOnce(r.verified) && Bounded(r.verified)
    ensures var t := See(r, key, at).verified;
      && t.Keys == r.verified.Keys && SeenOnce(t) && Bounded(t)
      && (forall other: SeenAs :: other != at && IsSeen(r.verified, other) ==> IsSeen(t, other))
  {
    hide ForgetSeen, NoteSeen, SeenOnce, Bounded, IsSeen;
    ForgetKeeps(r.verified, at, Some(key));
    NoteKeeps(ForgetSeen(r.verified, at, Some(key)), key, at);
  }

  /** Taking changes out, while the other pairs stay seen and no key shown gets verified. */
  lemma FewerChangesFit(r: Records, t: Records, which: KeyChange -> bool)
    requires ChangesFit(r) && t.changed == Keep(r.changed, which)
    requires forall c :: c in r.changed && which(c) ==> IsSeen(t.verified, c.at) && c.now !in t.verified
    ensures ChangesFit(t)
  {
    hide IsSeen;
    KeepHas(r.changed, which);
    forall i | 0 <= i < |t.changed| ensures IsSeen(t.verified, t.changed[i].at) && t.changed[i].now !in t.verified {
      assert t.changed[i] in t.changed;
    }
  }

  lemma EachFits(r: Records, c: KeyChange)
    requires ChangesFit(r) && c in r.changed
    ensures IsSeen(r.verified, c.at) && c.now !in r.verified
  {
  }

  lemma SeeVerifiedKeeps(r: Records, at: SeenAs, key: Key)
    requires RecordsInv(r)
    ensures RecordsInv(SeeVerified(r, at, key))
  {
    hide ChangesFit, IsSeen, SeenOnce;
    SeeKeeps(r, key, at);
    var t := SeeVerified(r, at, key);
    forall c | c in r.changed && c.at != at ensures IsSeen(t.verified, c.at) && c.now !in t.verified {
      EachFits(r, c);
    }
    FewerChangesFit(r, t, Elsewhere(at));
  }

  lemma NoteChangeKeeps(r: Records, at: SeenAs, key: Key)
    requires RecordsInv(r) && VerifiedAt(r, at).Some? && !IsVerified(r, key)
    ensures RecordsInv(NoteChange(r, at, key))
  {
    var kept := Keep(r.changed, Elsewhere(at));
    KeepHas(r.changed, Elsewhere(at));
    var k := Min(SeenBy(r.verified, at));
    assert k in SeenBy(r.verified, at);
    assert IsSeen(r.verified, at);
    forall i | 0 <= i < |kept| ensures kept[i].at != at && IsSeen(r.verified, kept[i].at) && kept[i].now !in r.verified {
      assert kept[i] in kept;
      EachFits(r, kept[i]);
    }
  }

  lemma NamedKeeps(r: Records, key: Key, name: string)
    requires RecordsInv(r)
    ensures var t := r.verified[key := Entry(name, if key in r.verified then r.verified[key].seen else {})];
      && t.Keys == r.verified.Keys + {key} && SeenOnce(t) && Bounded(t)
      && forall at: SeenAs :: IsSeen(r.verified, at) ==> IsSeen(t, at)
  {
    var t := r.verified[key := Entry(name, if key in r.verified then r.verified[key].seen else {})];
    SameSet(t.Keys, r.verified.Keys + {key});
    forall at: SeenAs | IsSeen(r.verified, at) ensures IsSeen(t, at) {
      var k :| k in r.verified && at in r.verified[k].seen;
      assert k in t && at in t[k].seen;
    }
  }

  lemma VerifyKeeps(r: Records, at: SeenAs, key: Key, name: string)
    requires RecordsInv(r)
    ensures RecordsInv(VerifyIn(r, at, key, name))
  {
    hide IsSeen, SeenOnce, Keep, See;
    var named := r.(verified := r.verified[key := Entry(name, if key in r.verified then r.verified[key].seen else {})]);
    NamedKeeps(r, key, name);
    SeeKeeps(named, key, at);
    SeeLeavesChanges(named, Some(key), at);
    var seen := ForgetChange(See(named, key, at), at);
    var t := VerifyIn(r, at, key, name);
    KeepHas(r.changed, Elsewhere(at));
    KeepHas(seen.changed, ShowsOther(key));
    forall i | 0 <= i < |t.changed| ensures IsSeen(t.verified, t.changed[i].at) && t.changed[i].now !in t.verified {
      assert t.changed[i] in t.changed;
      assert t.changed[i] in seen.changed && t.changed[i].now != key;
      EachFits(r, t.changed[i]);
    }
  }

  lemma UnverifyKeeps(r: Records, key: Key)
    requires RecordsInv(r)
    ensures RecordsInv(UnverifyIn(r, key))
  {
    if key in r.verified {
      var t := UnverifyIn(r, key);
      forall c | c in r.changed && c.at !in r.verified[key].seen ensures IsSeen(t.verified, c.at) && c.now !in t.verified {
        EachFits(r, c);
        var k :| k in r.verified && c.at in r.verified[k].seen;
        assert k in t.verified && c.at in t.verified[k].seen;
      }
      FewerChangesFit(r, t, NotSeen(r.verified[key].seen));
    }
  }

  lemma DismissKeeps(r: Records, at: SeenAs, watched: Option<Key>)
    requires RecordsInv(r)
    ensures RecordsInv(DismissIn(r, at, watched))
  {
    hide ChangesFit, IsSeen, SeenOnce, ForgetSeen, NoteSeen, See;
    ForgetKeeps(r.verified, at, None);
    var forgotten := r.(verified := ForgetSeen(r.verified, at, None));
    SeeKeepsIfAny(forgotten, watched, at);
    var t := DismissIn(r, at, watched);
    forall c | c in r.changed && c.at != at ensures IsSeen(t.verified, c.at) && c.now !in t.verified {
      EachFits(r, c);
    }
    SeeLeavesChanges(ForgetChange(forgotten, at), watched, at);
    FewerChangesFit(r, t, Elsewhere(at));
  }

  lemma SeeKeepsIfAny(r: Records, watched: Option<Key>, at: SeenAs)
    requires SeenOnce(r.verified) && Bounded(r.verified)
    ensures watched.Some? ==> var t := See(ForgetChange(r, at), watched.value, at).verified;
      && t.Keys == r.verified.Keys && SeenOnce(t) && Bounded(t)
      && forall other: SeenAs :: other != at && IsSeen(r.verified, other) ==> IsSeen(t, other)
  {
    hide IsSeen, SeenOnce, See;
    if watched.Some? {
      SeeKeeps(ForgetChange(r, at), watched.value, at);
    }
  }

  lemma SeeLeavesChanges(r: Records, watched: Option<Key>, at: SeenAs)
    ensures watched.Some? ==> See(r, watched.value, at).changed == r.changed
  {
  }

  lemma ShowsKeeps(r: Records, at: SeenAs, key: Key)
    requires RecordsInv(r) && !IsVerified(r, key)
    ensures RecordsInv(r.(changed := Shows(r.changed, at, key)))
  {
    hide IsSeen, SeenOnce;
    var shown := Shows(r.changed, at, key);
    forall i | 0 <= i < |shown| ensures shown[i].at == r.changed[i].at && IsSeen(r.verified, shown[i].at) && shown[i].now !in r.verified {
    }
  }

  lemma AtOnceKeeps(r: Records, op: Op)
    requires RecordsInv(r)
    ensures RecordsInv(AtOnce(r, op))
  {
    hide RecordsInv, SeeVerified, NoteChange, VerifyIn, UnverifyIn, DismissIn, VerifiedAt, ChangedIn, Shows;
    match op
    case Presented(at, key) =>
      if IsVerified(r, key) {
        SeeVerifiedKeeps(r, at, key);
      } else if VerifiedAt(r, at).Some? {
        ShowsKeeps(r, at, key);
        NoteChangeKeeps(r, at, key);
      }
    case Verify(at, key, name) => VerifyKeeps(r, at, key, name);
    case Unverify(key) => UnverifyKeeps(r, key);
    case Dismiss(at, shown) => DismissKeeps(r, at, Watched(r, shown));
  }

  /** In every state there can be: a pair is seen under at most one verified key, and noted as
      changed at most once, only where one was seen, and never to a verified key. */
  lemma {:induction false} RunsKeepRecords(r: Records, ops: seq<Op>)
    requires RecordsInv(r)
    ensures RecordsInv(RunAtOnce(r, ops))
    decreases |ops|
  {
    hide RecordsInv, AtOnce;
    if ops != [] {
      AtOnceKeeps(r, ops[0]);
      RunsKeepRecords(AtOnce(r, ops[0]), ops[1..]);
    }
  }

  /** The same of the records the store itself holds, whose changes may lag behind, and of what it
      will write. */
  lemma {:induction false} RunsKeepStore(s: Store, ops: seq<Op>)
    requires RecordsInv(s.records) && RecordsInv(Written(s))
    ensures RecordsInv(RunLater(s, ops).records) && RecordsInv(Written(RunLater(s, ops)))
    decreases |ops|
  {
    hide RecordsInv, Later, Written;
    if ops != [] {
      LaterKeeps(s, ops[0]);
      RunsKeepStore(Later(s, ops[0]), ops[1..]);
    }
  }

  /** Putting off leaves the records alone, and everything else writes what was put off. */
  lemma LaterKeeps(s: Store, op: Op)
    requires RecordsInv(s.records) && RecordsInv(Written(s))
    ensures RecordsInv(Later(s, op).records) && RecordsInv(Written(Later(s, op)))
  {
    hide RecordsInv, AtOnce, SeeVerified, NoteChange, VerifyIn, UnverifyIn, DismissIn, Written, VerifiedAt, ChangedIn;
    LaterIsAtOnce(s, op);
    AtOnceKeeps(Written(s), op);
    if Later(s, op).shownSince == map[] {
      NothingPutOff(Later(s, op).records);
    }
  }

  /** So whatever was loaded, it is so ever after. */
  lemma RecordsHold(loaded: Records, ops: seq<Op>)
    requires RecordsInv(loaded)
    ensures var s := RunLater(Store(loaded, map[]), ops); RecordsInv(s.records) && RecordsInv(Written(s))
  {
    hide RecordsInv;
    NothingPutOff(loaded);
    RunsKeepStore(Store(loaded, map[]), ops);
  }
}

/** The store itself. */
module VerifiedStore {
  import opened Collections
  import opened VerifiedModel

  /** The turns of the loop over the verified keys. */
  function ForgetAmong(verified: Verified, keys: set<Key>, at: SeenAs, except: Option<Key>): Verified {
    map k | k in verified ::
      if k in keys && except != Some(k) then verified[k].(seen := verified[k].seen - {at}) else verified[k]
  }

  lemma ForgetNext(verified: Verified, keys: set<Key>, k: Key, at: SeenAs, except: Option<Key>)
    requires k in verified && k !in keys
    ensures var done := ForgetAmong(verified, keys, at, except);
      && k in done && done[k] == verified[k]
      && ForgetAmong(verified, keys + {k}, at, except) ==
         if except != Some(k) then done[k := verified[k].(seen := verified[k].seen - {at})] else done
  {
    var done := ForgetAmong(verified, keys, at, except);
    SameMap(ForgetAmong(verified, keys + {k}, at, except),
            if except != Some(k) then done[k := verified[k].(seen := verified[k].seen - {at})] else done);
  }

  lemma ForgetEnds(verified: Verified, at: SeenAs, except: Option<Key>)
    ensures ForgetAmong(verified, {}, at, except) == verified
    ensures ForgetAmong(verified, verified.Keys, at, except) == ForgetSeen(verified, at, except)
  {
    SameMap(ForgetAmong(verified, {}, at, except), verified);
    SameMap(ForgetAmong(verified, verified.Keys, at, except), ForgetSeen(verified, at, except));
  }

  class VerifiedKeys {
    var verified: Verified
    var changed: seq<KeyChange>
    var shownSince: map<SeenAs, Key>

    ghost function View(): Store
      reads this
    {
      Store(Records(verified, changed), shownSince)
    }

    constructor ()
      ensures View() == Store(NONE, map[])
    {
      verified, changed, shownSince := map[], [], map[];
    }

    // ---- Questions ---------------------------------------------------------------------

    method IsVerifiedKey(key: Key) returns (known: bool)
      ensures known == IsVerified(View().records, key)
    {
      known := key in verified;
    }

    /** Whichever key the loop meets first is the only one the pair is noted with. */
    method VerifiedKeyAt(at: SeenAs) returns (key: Option<Key>)
      ensures key == VerifiedAt(View().records, at)
    {
      var left := verified.Keys;
      while left != {}
        invariant left <= verified.Keys
        invariant forall k :: k in verified && k !in left ==> at !in verified[k].seen && forall j :: j in left ==> k < j
        decreases |left|
      {
        var k := Min(left);
        if at in verified[k].seen {
          MinIs(SeenBy(verified, at), k);
          return Some(k);
        }
        left := left - {k};
      }
      forall k ensures k !in SeenBy(verified, at) {
      }
      SameSet(SeenBy(verified, at), {});
      key := None;
    }

    method ChangedKeyAt(at: SeenAs) returns (key: Option<Key>)
      ensures key == ChangedAt(View(), at)
    {
      var written := FindChange(at);
      key := if written.Some? && at in shownSince then Some(shownSince[at]) else written;
    }

    method FindChange(at: SeenAs) returns (key: Option<Key>)
      ensures key == ChangedIn(changed, at)
    {
      var k := 0;
      while k < |changed|
        invariant 0 <= k <= |changed| && ChangedIn(changed, at) == ChangedIn(changed[k..], at)
      {
        if changed[k].at == at {
          return Some(changed[k].now);
        }
        assert changed[k..][1..] == changed[k + 1..];
        k := k + 1;
      }
      key := None;
    }

    // ---- Changes -----------------------------------------------------------------------

    /** Does what presenting does to the specification: a pair with a warning costs no write. */
    method Present(at: SeenAs, key: Key)
      modifies this
      ensures View() == Later(old(View()), Presented(at, key))
    {
      hide VerifiedAt, ChangedIn;
      var expected := VerifiedKeyAt(at);
      if key in verified {
        if expected == Some(key) {
          return;
        }
        Flush();
        SeeKey(key, at);
        Forget(at);
        shownSince := map[];
        return;
      }
      if expected.None? {
        return;
      }
      var recorded := FindChange(at);
      if recorded.Some? {
        shownSince := shownSince[at := key];
        return;
      }
      Flush();
      Forget(at);
      changed := changed + [KeyChange(at, key)];
      shownSince := map[];
    }

    method VerifyKey(at: SeenAs, key: Key, name: string)
      modifies this
      ensures View() == Later(old(View()), Verify(at, key, name))
    {
      hide ForgetSeen, NoteSeen, Keep, AllLatest;
      Flush();
      verified := verified[key := Entry(name, if key in verified then verified[key].seen else {})];
      SeeKey(key, at);
      Forget(at);
      changed := Keep(changed, ShowsOther(key));
      shownSince := map[];
    }

    method UnverifyKey(key: Key)
      modifies this
      ensures View() == Later(old(View()), Unverify(key))
    {
      Flush();
      if key in verified {
        var seen := verified[key].seen;
        verified := verified - {key};
        changed := Keep(changed, NotSeen(seen));
      }
      shownSince := map[];
    }

    /** Stops the warning at a pair, which stays watched under a verified key shown there. */
    method DismissChange(at: SeenAs, shown: Option<Key>)
      modifies this
      ensures View() == Later(old(View()), Dismiss(at, shown))
    {
      hide ForgetSeen, NoteSeen, Keep, AllLatest;
      var watched := if shown.Some? && shown.value in verified then shown else None;
      shownSince := shownSince - {at};
      Flush();
      ForgetSeenBut(at, None);
      Forget(at);
      if watched.Some? {
        SeeKey(watched.value, at);
      }
      shownSince := map[];
    }

    // ---- Steps of a change -------------------------------------------------------------

    /** Writes what was put off into the changes it is about. */
    method Flush()
      modifies `changed
      ensures changed == AllLatest(old(changed), shownSince)
    {
      var k := 0;
      while k < |changed|
        invariant 0 <= k <= |changed| == |old(changed)|
        invariant forall i :: 0 <= i < k ==> changed[i] == Latest(old(changed)[i], shownSince)
        invariant forall i :: k <= i < |changed| ==> changed[i] == old(changed)[i]
      {
        if changed[k].at in shownSince {
          changed := changed[k := changed[k].(now := shownSince[changed[k].at])];
        }
        k := k + 1;
      }
    }

    method Forget(at: SeenAs)
      modifies `changed
      ensures changed == Keep(old(changed), Elsewhere(at))
    {
      changed := Keep(changed, Elsewhere(at));
    }

    /** Afterwards the pair is noted with this key alone, if it is verified and has room for it. */
    method SeeKey(key: Key, at: SeenAs)
      modifies `verified
      ensures verified == See(Records(old(verified), changed), key, at).verified
    {
      ForgetSeenBut(at, Some(key));
      if key in verified && |verified[key].seen| < MAX_SEEN {
        verified := verified[key := verified[key].(seen := verified[key].seen + {at})];
      }
    }

    /** The pair is noted with no key but, if any, the one excepted. */
    method ForgetSeenBut(at: SeenAs, except: Option<Key>)
      modifies `verified
      ensures verified == ForgetSeen(old(verified), at, except)
    {
      hide ForgetAmong, ForgetSeen;
      ghost var before := verified;
      var left := verified.Keys;
      ghost var done: set<Key> := {};
      ForgetEnds(before, at, except);
      while left != {}
        invariant done + left == before.Keys && done !! left
        invariant verified == ForgetAmong(before, done, at, except)
        decreases |left|
      {
        var k := Min(left);
        ForgetNext(before, done, k, at, except);
        if except != Some(k) {
          verified := verified[k := verified[k].(seen := verified[k].seen - {at})];
        }
        left := left - {k};
        done := done + {k};
      }
      assert done == before.Keys;
    }
  }

  lemma MinIs(s: set<int>, m: int)
    requires m in s && forall x :: x in s ==> m <= x
    ensures s != {} && Min(s) == m
  {
  }
}
