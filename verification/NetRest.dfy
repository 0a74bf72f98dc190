/**
 Once everything sent has been delivered, every two members of the room hold each other's
 current keys: what a client knows catches up with the room.
 */
module NetRest {
  import opened Collections
  import opened KeyModel
  import opened KeyInvariants
  import opened KeyTheorems
  import opened KeyRuns
  import opened NetModel
  import opened NetSafety
  import opened NetArrival
  import opened NetRuns

  // ---- What a client in a room has taken in --------------------------------------------

  /** In a room, the peers are all that its last state allows, and there is a secret for them. */
  ghost predicate Applied(w: World, k: Keys) {
    k.room.Some? ==> k.mySecret.Some? && k.peers == TrustedNow(k, w.room, k.roomPeers, w.unix)
  }

  lemma {:induction false} TrustDepends(s: Keys, t: Keys, room: RoomId, peers: seq<Peer>, unix: nat)
    requires t.me == s.me && t.server == s.server && t.unwrappable == s.unwrappable
    requires forall u :: u != s.me ==> (Presence(s.present, u) == Some(room) <==> Presence(t.present, u) == Some(room))
    ensures Trusted(s, room, peers, unix) == Trusted(t, room, peers, unix)
  {
    if peers != [] {
      TrustDepends(s, t, room, peers[..|peers| - 1], unix);
    }
  }

  lemma TrustedNowDepends(s: Keys, t: Keys, room: RoomId, peers: seq<Peer>, unix: nat)
    requires t.me == s.me && t.server == s.server && t.unwrappable == s.unwrappable && t.myTracks == s.myTracks
    requires forall u :: u != s.me ==> (Presence(s.present, u) == Some(room) <==> Presence(t.present, u) == Some(room))
    ensures TrustedNow(s, room, peers, unix) == TrustedNow(t, room, peers, unix)
  {
    var listed := Listed(s.unwrappable, peers);
    TrustDepends(s.(unwrappable := listed), t.(unwrappable := listed), room, peers, unix);
    assert IsInvalid(s, peers) == IsInvalid(t, peers);
  }

  lemma StateApplied(w: World, s: Keys, epoch: Epoch, peers: seq<Peer>)
    requires Inv(s, w.now) && s.weak == {} && s.unwrappable == map[] && Accepts(s, w.room, epoch)
    ensures var t := PeersChanged(s, w.room, epoch, peers, w.now, w.unix).0;
      Applied(w, t) && t.room == s.room && t.epoch == epoch && t.stashed == s.stashed && t.present == s.present && t.myTracks == s.myTracks
      && t.roomPeers == peers
  {
    hide Inv, PeersChanged, TrustedNow, Raise, TrustState, NeedsNewSecret;
    var t := PeersChanged(s, w.room, epoch, peers, w.now, w.unix).0;
    StateTouches(s, w.room, epoch, peers, w.now, w.unix);
    RoomStateRekeys(s, w.room, epoch, peers, w.now, w.now, w.unix);
    TrustedNowDepends(s, t, w.room, peers, w.unix);
  }

  /** What a client knows beside its keys: every presence it was told. */
  ghost predicate Aware(w: World, k: Keys) {
    && Applied(w, k)
    && (k.room.Some? ==> k.stashed.None?)
    && k.present.Keys <= w.accounts.Keys
  }

  // ---- News of the room's epoch --------------------------------------------------------

  ghost predicate IsNews(at: Epoch, op: Op) {
    (op.RoomState? && op.epoch == at) || (op.Placement? && op.to.Some? && op.epoch == at)
  }

  ghost predicate KnowsNews(at: Epoch, k: Keys) {
    (k.room.Some? && k.epoch == at) || (k.stashed.Some? && k.stashed.value.epoch == at)
  }

  /** A state of the room's epoch was applied, is kept for later, or is on its way. */
  ghost predicate HasNews(at: Epoch, l: Link) {
    || KnowsNews(at, l.keys)
    || (l.answer.Some? && IsNews(at, l.answer.value))
    || exists i :: 0 <= i < |l.inbox| && IsNews(at, l.inbox[i])
  }

  /** Where the last presence in `inbox` shows `v`, or else `present`. */
  ghost function ShownLast(present: map<UserId, RoomId>, inbox: seq<Op>, v: UserId): Option<RoomId> {
    if inbox == [] then Presence(present, v) else
    var last := inbox[|inbox| - 1];
    if last.Shown? && last.user == v then last.at else ShownLast(present, inbox[..|inbox| - 1], v)
  }

  ghost predicate PresencesOk(w: World, members: Members, l: Link) {
    forall v :: v in w.accounts ==> ShownLast(l.keys.present, l.inbox, v) == ShownAt(w, members, v)
  }

  ghost predicate OnlyKnown(w: World, inbox: seq<Op>) {
    forall i :: 0 <= i < |inbox| && inbox[i].Shown? ==> inbox[i].user in w.accounts
  }

  ghost predicate AnswerIsOurs(members: Members, u: UserId, op: Op) {
    op.Placement? && op.to.Some? && u in members ==> op.tracks == Some(members[u])
  }

  /** In the room as far as the client knows, or about to be told where it is. */
  ghost predicate TakesPart(l: Link) {
    l.keys.room.Some? || l.answer.Some?
  }

  ghost predicate Informed(w: World, at: Epoch, members: Members, u: UserId, l: Link) {
    && Aware(w, l.keys)
    && (u in members && TakesPart(l) ==> HasNews(at, l))
    && PresencesOk(w, members, l)
    && OnlyKnown(w, l.inbox)
    && (l.answer.Some? ==> AnswerIsOurs(members, u, l.answer.value))
  }

  // ---- Events keep a client informed ---------------------------------------------------

  lemma {:induction false} ShownAfter(present: map<UserId, RoomId>, inbox: seq<Op>, after: map<UserId, RoomId>, v: UserId)
    requires inbox != []
    requires Presence(after, v) == if inbox[0].Shown? && inbox[0].user == v then inbox[0].at else Presence(present, v)
    ensures ShownLast(after, inbox[1..], v) == ShownLast(present, inbox, v)
    decreases |inbox|
  {
    var shorter := inbox[..|inbox| - 1];
    if |inbox| > 1 {
      ShownAfter(present, shorter, after, v);
      assert inbox[1..][..|inbox[1..]| - 1] == shorter[1..];
    }
  }

  lemma ShownNext(present: map<UserId, RoomId>, inbox: seq<Op>, op: Op, v: UserId)
    ensures ShownLast(present, inbox + [op], v) == if op.Shown? && op.user == v then op.at else ShownLast(present, inbox, v)
  {
    assert (inbox + [op])[..|inbox|] == inbox;
  }

  lemma PresenceFits(w: World, k: Keys, user: UserId, where: Option<RoomId>)
    requires Honest(w) && k.present.Keys <= w.accounts.Keys && user in w.accounts
    ensures !PresenceIsFull(k, user, where)
  {
    if user !in k.present {
      Fewer(k.present.Keys, w.accounts.Keys - {user});
      assert |w.accounts.Keys - {user}| == |w.accounts.Keys| - 1;
      assert |k.present.Keys| == |k.present| && |w.accounts.Keys| == |w.accounts|;
    }
  }

  lemma ShownAware(w: World, at: Epoch, members: Members, u: UserId, k: Keys, user: UserId, where: Option<RoomId>)
    requires KeysOk(w, at, members, u, k) && Aware(w, k) && Honest(w) && user in w.accounts
    ensures var t := Apply(k, Step(Shown(user, where), w.now, w.unix)).0;
      && Aware(w, t) && t.epoch == k.epoch && t.room == k.room && t.stashed == k.stashed
      && forall v :: Presence(t.present, v) == if v == user then where else Presence(k.present, v)
  {
    hide Inv, ListOk, PeersChanged, TrustedNow;
    var s := SetPresence(k, user, where).0;
    PresenceFits(w, k, user, where);
    PresenceOk(w, at, members, u, k, user, where);
    assert s.present.Keys <= w.accounts.Keys;
    if SetPresence(k, user, where).1 {
      StateApplied(w, s, s.epoch, s.roomPeers);
    } else if k.room.Some? {
      TrustedNowDepends(k, s, w.room, k.roomPeers, w.unix);
    }
  }

  lemma StateAware(w: World, at: Epoch, members: Members, u: UserId, k: Keys, epoch: Epoch, peers: seq<Peer>)
    requires KeysOk(w, at, members, u, k) && Aware(w, k) && ListOk(w, at, members, u, epoch, peers)
    ensures var t := PeersChanged(k, w.room, epoch, peers, w.now, w.unix).0;
      && Aware(w, t) && t.present == k.present
      && (KnowsNews(at, k) || epoch == at ==> KnowsNews(at, t))
  {
    hide Inv, ListOk, PeersChanged, TrustedNow, Describes;
    EpochOk(w, at, members, u, epoch, peers);
    if Accepts(k, w.room, epoch) {
      StateApplied(w, k, epoch, peers);
    } else {
      RefusedStates(k, w.room, epoch, peers, w.now, w.unix);
      Stashed(w, at, members, u, k, epoch, peers);
    }
  }

  lemma Stashed(w: World, at: Epoch, members: Members, u: UserId, k: Keys, epoch: Epoch, peers: seq<Peer>)
    requires KeysOk(w, at, members, u, k) && 0 <= epoch <= at && !Accepts(k, w.room, epoch)
    ensures var t := PeersChanged(k, w.room, epoch, peers, w.now, w.unix).0;
      && (k.room.Some? ==> t == k)
      && (KnowsNews(at, k) || epoch == at ==> KnowsNews(at, t))
  {
    hide Inv, Describes, Fixed, Rekey, TrustState, TakeEarly;
  }

  lemma MessageAware(w: World, at: Epoch, members: Members, u: UserId, k: Keys, op: Op)
    requires KeysOk(w, at, members, u, k) && Aware(w, k) && Honest(w)
    requires MessageOk(w, at, members, u, op) && (op.Shown? ==> op.user in w.accounts)
    ensures var t := Apply(k, Step(op, w.now, w.unix)).0;
      && Aware(w, t)
      && (KnowsNews(at, k) || IsNews(at, op) ==> KnowsNews(at, t))
      && forall v :: Presence(t.present, v) == if op.Shown? && v == op.user then op.at else Presence(k.present, v)
  {
    hide KeysOk, ListOk, PeersChanged, SetPresence, ReapplyPeers, SenderKey, Aware;
    match op
    case RoomState(room, epoch, peers) => StateAware(w, at, members, u, k, epoch, peers);
    case Shown(user, where) => ShownAware(w, at, members, u, k, user, where);
    case KeyFrom(sender, epoch, blob) => KeyFromAware(w, k, sender, epoch, blob);
  }

  lemma KeyFromAware(w: World, k: Keys, sender: UserId, epoch: Epoch, blob: Blob)
    requires Aware(w, k)
    ensures var t := SenderKey(k, sender, epoch, blob, w.now).0;
      Aware(w, t) && t.room == k.room && t.epoch == k.epoch && t.stashed == k.stashed && t.present == k.present
  {
    hide SenderKey, TrustedNow;
    SenderKeyTouches(k, sender, epoch, blob, w.now);
    TrustedNowDepends(k, SenderKey(k, sender, epoch, blob, w.now).0, w.room, k.roomPeers, w.unix);
  }

  lemma DeliverInformed(w: World, at: Epoch, members: Members, u: UserId, l: Link)
    requires LinkOk(w, at, members, u, l) && Informed(w, at, members, u, l) && Honest(w) && l.inbox != []
    ensures Informed(w, at, members, u, DeliverNext(w, l))
  {
    hide KeysOk, Aware, Apply, IsNews, AnswerOk, AnswerIsOurs, RequestsOk, KnowsNews, Honest;
    var op, m := l.inbox[0], DeliverNext(w, l);
    assert MessageOk(w, at, members, u, op);
    hide MessageOk;
    EventStays(w, at, members, u, l.keys, op, at);
    MessageAware(w, at, members, u, l.keys, op);
    forall v | v in w.accounts ensures ShownLast(m.keys.present, m.inbox, v) == ShownAt(w, members, v) {
      ShownAfter(l.keys.present, l.inbox, m.keys.present, v);
    }
    if u in members && TakesPart(l) && !KnowsNews(at, l.keys) && !(l.answer.Some? && IsNews(at, l.answer.value)) {
      var i :| 0 <= i < |l.inbox| && IsNews(at, l.inbox[i]);
      assert i > 0 ==> m.inbox[i - 1] == l.inbox[i];
    }
  }

  // ---- Answers keep a client informed --------------------------------------------------

  lemma CaughtUpAware(w: World, at: Epoch, members: Members, u: UserId, k: Keys, epoch: Epoch)
    requires KeysOk(w, at, members, u, k) && Applied(w, k) && k.room == Some(w.room) && k.epoch == epoch
    ensures var t := CatchUp(k, w.room, epoch, w.now, w.unix).0;
      && Applied(w, t) && t.room == k.room && t.stashed.None? && t.myTracks == k.myTracks && t.present == k.present
      && (KnowsNews(at, k) ==> t.epoch == at)
  {
    hide Inv, PeersChanged, TrustedNow, Describes, Fixed;
    var caught := k.(stashed := None);
    UnstashOk(w, at, members, u, k);
    if k.stashed.Some? && k.stashed.value.epoch > epoch {
      StateApplied(w, caught, k.stashed.value.epoch, k.stashed.value.peers);
    } else {
      TrustedNowDepends(k, caught, w.room, k.roomPeers, w.unix);
    }
  }

  lemma AnswerAware(w: World, at: Epoch, members: Members, u: UserId, k: Keys, op: Op)
    requires KeysOk(w, at, members, u, k) && Aware(w, k) && u in w.accounts
    requires AnswerOk(w, at, members, u, op) && AnswerIsOurs(members, u, op)
    ensures var t := Apply(k, Step(op, w.now, w.unix)).0;
      && Aware(w, t) && t.present == k.present
      && (u in members && (KnowsNews(at, k) || IsNews(at, op)) ==> KnowsNews(at, t))
  {
    hide Inv, PeersChanged, TrustedNow, Describes, Fixed, Place, CatchUp;
    var Placement(to, epoch, tracks, peers) := op;
    var placed := Place(k, to, tracks);
    PlacedStands(k, to, tracks);
    if to.Some? && !(to == k.room && epoch < k.epoch) {
      PlaceOk(w, at, members, u, k, to, tracks, epoch);
      var entered := PeersChanged(placed, w.room, epoch, peers, w.now, w.unix).0;
      StateApplied(w, placed, epoch, peers);
      StateOk(w, at, members, u, placed, epoch, peers);
      CaughtUpAware(w, at, members, u, entered, epoch);
    }
  }

  lemma SettleInformed(w: World, at: Epoch, members: Members, u: UserId, l: Link)
    requires LinkOk(w, at, members, u, l) && Informed(w, at, members, u, l) && l.answer.Some?
    ensures Informed(w, at, members, u, SettleAnswer(w, l))
  {
    hide KeysOk, Aware, Apply, IsNews, AnswerOk, AnswerIsOurs, RequestsOk, KnowsNews, InboxOk;
    var m := SettleAnswer(w, l);
    AnswerAware(w, at, members, u, l.keys, l.answer.value);
    if u in members && !KnowsNews(at, m.keys) {
      var i :| 0 <= i < |l.inbox| && IsNews(at, l.inbox[i]);
      assert IsNews(at, m.inbox[i]);
    }
  }

  // ---- The server keeps clients informed -----------------------------------------------

  lemma ToldInformed(w: World, at: Epoch, members: Members, u: UserId, l: Link, op: Op)
    requires Informed(w, at, members, u, l)
    requires op.Shown? ==> op.user in w.accounts && op.at == ShownAt(w, members, op.user)
    ensures Informed(w, at, members, u, l.(inbox := l.inbox + [op]))
  {
    hide Aware, AnswerIsOurs, KnowsNews, IsNews, Core;
    var m := l.(inbox := l.inbox + [op]);
    forall v | v in w.accounts ensures ShownLast(m.keys.present, m.inbox, v) == ShownAt(w, members, v) {
      ShownNext(l.keys.present, l.inbox, op, v);
    }
    if u in members && TakesPart(l) && !KnowsNews(at, l.keys) && !(l.answer.Some? && IsNews(at, l.answer.value)) {
      var i :| 0 <= i < |l.inbox| && IsNews(at, l.inbox[i]);
      assert IsNews(at, m.inbox[i]);
    }
  }

  /** `who` moved. Everyone else in the room hears of the new epoch, and everyone of the move. */
  lemma MoveInforms(w: World, at: Epoch, members: Members, later: Epoch, others: Members, u: UserId, l: Link, m: Link,
                    who: UserId, told: seq<Op>)
    requires Informed(w, at, members, u, l) && who in w.accounts
    requires m.keys == l.keys && m.inbox == l.inbox + told + [Shown(who, ShownAt(w, others, who))]
    requires forall i :: 0 <= i < |told| ==> !told[i].Shown?
    requires forall v :: v != who ==> (v in others <==> v in members) && (v in members ==> others[v] == members[v])
    requires u in others && u != who ==> exists i :: 0 <= i < |told| && IsNews(later, told[i])
    requires u == who && u in others ==> m.answer.Some? && IsNews(later, m.answer.value)
    requires m.answer.Some? ==> AnswerIsOurs(others, u, m.answer.value)
    ensures Informed(w, later, others, u, m)
  {
    hide AnswerIsOurs, KnowsNews, IsNews, Applied, Core;
    var shown := Shown(who, ShownAt(w, others, who));
    forall v | v in w.accounts ensures ShownLast(m.keys.present, m.inbox, v) == ShownAt(w, others, v) {
      ShownNext(l.keys.present, l.inbox + told, shown, v);
      NothingShown(l.keys.present, l.inbox, told, v);
    }
    if u in others && u != who {
      var i :| 0 <= i < |told| && IsNews(later, told[i]);
      assert m.inbox[|l.inbox| + i] == told[i];
    }
    assert Aware(w, m.keys);
  }

  lemma {:induction false} NothingShown(present: map<UserId, RoomId>, inbox: seq<Op>, told: seq<Op>, v: UserId)
    requires forall i :: 0 <= i < |told| ==> !told[i].Shown?
    ensures ShownLast(present, inbox + told, v) == ShownLast(present, inbox, v)
    decreases |told|
  {
    if told == [] {
      assert inbox + told == inbox;
    } else {
      var shorter := told[..|told| - 1];
      assert (inbox + told)[..|inbox + told| - 1] == inbox + shorter;
      NothingShown(present, inbox, shorter, v);
    }
  }

  lemma RestartInformed(w: World, at: Epoch, members: Members, u: UserId, k: Keys)
    requires u !in members && members.Keys <= w.accounts.Keys
    ensures Informed(w, at, members, u, Restart(w, k, members))
  {
    hide Core;
    assert PresenceOf(w, members).Keys == members.Keys;
  }

  lemma AnsweredInformed(w: World, at: Epoch, members: Members, u: UserId, l: Link, op: Op)
    requires Informed(w, at, members, u, l) && AnswerIsOurs(members, u, op) && (u in members ==> IsNews(at, op))
    ensures Informed(w, at, members, u, l.(answer := Some(op)))
  {
    hide Aware, KnowsNews, IsNews, AnswerIsOurs, Core;
  }

  /** What a client has yet to send, and kicks it has yet to act on, don't inform it. */
  lemma StillInformed(w: World, at: Epoch, members: Members, u: UserId, l: Link, m: Link)
    requires Informed(w, at, members, u, l) && m.keys == l.keys && m.inbox == l.inbox && m.answer == l.answer
    ensures Informed(w, at, members, u, m)
  {
    hide Aware, KnowsNews, IsNews, AnswerIsOurs, Core;
    if u in members && TakesPart(l) && !KnowsNews(at, l.keys) && !(l.answer.Some? && IsNews(at, l.answer.value)) {
      var i :| 0 <= i < |l.inbox| && IsNews(at, l.inbox[i]);
      assert IsNews(at, m.inbox[i]);
    }
  }

  lemma PutOutInformed(w: World, at: Epoch, members: Members, u: UserId, l: Link)
    requires Informed(w, at, members, u, l) && l.kicks > 0 && l.answer.None?
    ensures Informed(w, at, members, u, ActOnKick(w, l))
  {
    hide KnowsNews, IsNews, AnswerIsOurs, Core;
    if l.keys.room == Some(w.room) {
      PlacedStands(l.keys, None, None);
    } else {
      StillInformed(w, at, members, u, l, ActOnKick(w, l));
    }
  }

  // ---- Every step, every run -----------------------------------------------------------

  ghost predicate Apart(a: Tracks, b: Tracks) {
    a.mic + 3 <= b.mic || b.mic + 3 <= a.mic
  }

  /** The room isn't over-full, and no two memberships share a media id. */
  ghost predicate MembersOk(n: Net) {
    && |n.members| <= MAX_ROOM_MEMBERS
    && (forall u :: u in n.members ==> n.members[u] == TracksFrom(n.members[u].mic) && n.members[u].mic + 3 <= n.nextId)
    && (forall u, v :: u in n.members && v in n.members && u != v ==> Apart(n.members[u], n.members[v]))
  }

  ghost predicate AllInformed(w: World, n: Net) {
    MembersOk(n) && forall u :: u in n.links ==> Informed(w, n.epoch, n.members, u, n.links[u])
  }

  lemma EnterInforms(w: World, n: Net, u: UserId, peers: seq<Peer>)
    requires NetOk(w, n) && AllInformed(w, n) && Enabled(w, n, Enter(u, peers))
    ensures AllInformed(w, Next(w, n, Enter(u, peers)))
  {
    hide Informed, Conveyed, Honest, Describes, InboxOk, RequestsOk, KeysOk;
    var m := Next(w, n, Enter(u, peers));
    var state := RoomState(w.room, n.epoch + 1, peers);
    forall v | v in m.links ensures Informed(w, m.epoch, m.members, v, m.links[v]) {
      var told := if v in n.members then [state] else [];
      assert told != [] ==> IsNews(m.epoch, told[0]);
      assert m.links[v].inbox == n.links[v].inbox + told + [Shown(u, Some(w.room))];
      if v != u && n.links[v].answer.Some? {
        OursStill(w, n, v, m.members);
      }
      MoveInforms(w, n.epoch, n.members, m.epoch, m.members, v, n.links[v], m.links[v], u, told);
    }
    MembersStayOk(w, n, u);
  }

  lemma OursStill(w: World, n: Net, v: UserId, others: Members)
    requires v in n.links && Informed(w, n.epoch, n.members, v, n.links[v]) && n.links[v].answer.Some?
    requires v in others ==> v in n.members && others[v] == n.members[v]
    ensures AnswerIsOurs(others, v, n.links[v].answer.value)
  {
    hide Core;
  }

  lemma MembersStayOk(w: World, n: Net, u: UserId)
    requires MembersOk(n) && u !in n.members && |n.members| < MAX_ROOM_MEMBERS
    ensures MembersOk(Net(n.epoch + 1, With(w, n, u), n.nextId + 3, n.links))
  {
    assert With(w, n, u).Keys == n.members.Keys + {u};
  }

  lemma OutInforms(w: World, n: Net, u: UserId, peers: seq<Peer>, v: UserId, m: Link)
    requires NetOk(w, n) && AllInformed(w, n) && u in n.members && v in n.links
    requires var out := TakeOut(w, n, u, peers); m.keys == n.links[v].keys && m.inbox == out.links[v].inbox
    requires v != u ==> m.answer == n.links[v].answer
    ensures Informed(w, n.epoch + 1, n.members - {u}, v, m)
  {
    hide Informed, Conveyed, Honest, Describes, InboxOk, RequestsOk, KeysOk;
    var told := if v in n.members && v != u then [RoomState(w.room, n.epoch + 1, peers)] else [];
    assert told != [] ==> IsNews(n.epoch + 1, told[0]);
    assert m.inbox == n.links[v].inbox + told + [Shown(u, None)];
    if v != u && n.links[v].answer.Some? {
      OursStill(w, n, v, n.members - {u});
    }
    MoveInforms(w, n.epoch, n.members, n.epoch + 1, n.members - {u}, v, n.links[v], m, u, told);
  }

  lemma FewerMembersOk(n: Net, u: UserId, epoch: Epoch, links: map<UserId, Link>)
    requires MembersOk(n) && u in n.members
    ensures MembersOk(Net(epoch, n.members - {u}, n.nextId, links))
  {
    assert (n.members - {u}).Keys == n.members.Keys - {u};
  }

  lemma LeaveInforms(w: World, n: Net, u: UserId, peers: seq<Peer>)
    requires NetOk(w, n) && AllInformed(w, n) && Enabled(w, n, Leave(u, peers))
    ensures AllInformed(w, Next(w, n, Leave(u, peers)))
  {
    hide Informed, NetOk, Describes, MembersOk, KeysOk;
    var m := Next(w, n, Leave(u, peers));
    forall v | v in m.links ensures Informed(w, m.epoch, m.members, v, m.links[v]) {
      OutInforms(w, n, u, peers, v, m.links[v]);
    }
    FewerMembersOk(n, u, m.epoch, m.links);
  }

  lemma KickInforms(w: World, n: Net, u: UserId, peers: seq<Peer>, told: bool)
    requires NetOk(w, n) && AllInformed(w, n) && Enabled(w, n, Kick(u, peers, told))
    ensures AllInformed(w, Next(w, n, Kick(u, peers, told)))
  {
    hide Informed, NetOk, Describes, MembersOk, KeysOk;
    var m := Next(w, n, Kick(u, peers, told));
    forall v | v in m.links ensures Informed(w, m.epoch, m.members, v, m.links[v]) {
      OutInforms(w, n, u, peers, v, m.links[v]);
    }
    FewerMembersOk(n, u, m.epoch, m.links);
  }

  lemma PutOutInforms(w: World, n: Net, u: UserId)
    requires AllInformed(w, n) && u in n.links && n.links[u].kicks > 0 && n.links[u].answer.None?
    ensures AllInformed(w, n.(links := n.links[u := ActOnKick(w, n.links[u])]))
  {
    hide Informed, MembersOk, ActOnKick;
    PutOutInformed(w, n.epoch, n.members, u, n.links[u]);
    OneInformed(w, n, u, ActOnKick(w, n.links[u]));
  }

  lemma RefuseInforms(w: World, n: Net, u: UserId)
    requires AllInformed(w, n) && u in n.links && n.links[u].outbox != []
    ensures AllInformed(w, n.(links := n.links[u := RefuseNext(n.links[u])]))
  {
    hide Informed, MembersOk;
    StillInformed(w, n.epoch, n.members, u, n.links[u], RefuseNext(n.links[u]));
    OneInformed(w, n, u, RefuseNext(n.links[u]));
  }

  lemma ReconnectInforms(w: World, n: Net, u: UserId, peers: seq<Peer>)
    requires NetOk(w, n) && AllInformed(w, n) && Enabled(w, n, Reconnect(u, peers))
    ensures AllInformed(w, Next(w, n, Reconnect(u, peers)))
  {
    hide Informed, LinkOk, Conveyed, Describes, MembersOk, Restart, KeysOk;
    var m := Next(w, n, Reconnect(u, peers));
    forall v | v in m.links ensures Informed(w, m.epoch, m.members, v, m.links[v]) {
      if v == u {
        RestartInformed(w, m.epoch, m.members, u, n.links[u].keys);
      } else if u in n.members {
        OutInforms(w, n, u, peers, v, m.links[v]);
      }
    }
    if u in n.members {
      FewerMembersOk(n, u, m.epoch, m.links);
    } else {
      SameMembersOk(n, m);
    }
  }

  lemma SameMembersOk(n: Net, m: Net)
    requires MembersOk(n) && m.members == n.members && m.nextId == n.nextId
    ensures MembersOk(m)
  {
  }

  lemma ToldAllInformed(w: World, n: Net, m: Net, whom: set<UserId>, op: Op)
    requires AllInformed(w, n) && m == n.(links := Tell(n.links, whom, op))
    requires op.Shown? ==> op.user in w.accounts && op.at == ShownAt(w, n.members, op.user)
    ensures AllInformed(w, m)
  {
    hide Informed, Core;
    SameMembersOk(n, m);
    forall u | u in m.links ensures Informed(w, m.epoch, m.members, u, m.links[u]) {
      ToldInformed(w, n.epoch, n.members, u, n.links[u], op);
    }
  }

  lemma OneInformed(w: World, n: Net, u: UserId, l: Link)
    requires AllInformed(w, n) && u in n.links && Informed(w, n.epoch, n.members, u, l)
    ensures AllInformed(w, n.(links := n.links[u := l]))
  {
    hide Informed, Core;
    SameMembersOk(n, n.(links := n.links[u := l]));
  }

  lemma AcceptInforms(w: World, n: Net, u: UserId)
    requires AllInformed(w, n) && u in n.links && n.links[u].outbox != []
    ensures AllInformed(w, AcceptNext(n, u))
  {
    hide Informed, Core;
    var m, p := AcceptNext(n, u), n.links[u].outbox[0];
    SameMembersOk(n, m);
    forall v | v in m.links ensures Informed(w, m.epoch, m.members, v, m.links[v]) {
      var l := n.links[v];
      if m.links[v].inbox != l.inbox {
        ToldInformed(w, n.epoch, n.members, v, l, KeyFrom(u, p.epoch, p.wrapped[v]));
        StillInformed(w, n.epoch, n.members, v, l.(inbox := m.links[v].inbox), m.links[v]);
      } else {
        StillInformed(w, n.epoch, n.members, v, l, m.links[v]);
      }
    }
  }

  lemma NextInforms(w: World, n: Net, move: Move)
    requires NetOk(w, n) && AllInformed(w, n) && Enabled(w, n, move)
    ensures AllInformed(w, Next(w, n, move))
  {
    hide AllInformed, LinkOk, Conveyed, Describes, DeliverNext, SettleAnswer, AcceptNext, Tell, EnterRoomOf, LeaveRoomOf, KickedOut, ActOnKick, RefuseNext, Restarted, KeysOk;
    match move
    case Enter(u, peers) => EnterInforms(w, n, u, peers);
    case Leave(u, peers) => LeaveInforms(w, n, u, peers);
    case Ask(u, peers) => AskInforms(w, n, u, peers);
    case Kick(u, peers, told) => KickInforms(w, n, u, peers, told);
    case PutOut(u) => PutOutInforms(w, n, u);
    case Refuse(u) => RefuseInforms(w, n, u);
    case Refresh(peers) => ToldAllInformed(w, n, Next(w, n, move), n.members.Keys, RoomState(w.room, n.epoch, peers));
    case Announce(u) => ToldAllInformed(w, n, Next(w, n, move), n.links.Keys, Shown(u, Some(w.room)));
    case Reconnect(u, peers) => ReconnectInforms(w, n, u, peers);
    case Accept(u) => AcceptInforms(w, n, u);
    case Deliver(u) => DeliverInforms(w, n, u);
    case Settle(u) => SettleInforms(w, n, u);
  }

  lemma AskInforms(w: World, n: Net, u: UserId, peers: seq<Peer>)
    requires AllInformed(w, n) && u in n.links && n.links[u].answer.None?
    ensures AllInformed(w, n.(links := n.links[u := n.links[u].(answer := Some(AnswerAgain(w, n, u, peers)))]))
  {
    hide Informed, MembersOk, Core;
    AnsweredInformed(w, n.epoch, n.members, u, n.links[u], AnswerAgain(w, n, u, peers));
    OneInformed(w, n, u, n.links[u].(answer := Some(AnswerAgain(w, n, u, peers))));
  }

  lemma DeliverInforms(w: World, n: Net, u: UserId)
    requires NetOk(w, n) && AllInformed(w, n) && u in n.links && n.links[u].inbox != []
    ensures AllInformed(w, n.(links := n.links[u := DeliverNext(w, n.links[u])]))
  {
    hide Informed, MembersOk, LinkOk, Conveyed, DeliverNext, KeysOk;
    DeliverInformed(w, n.epoch, n.members, u, n.links[u]);
    OneInformed(w, n, u, DeliverNext(w, n.links[u]));
  }

  lemma SettleInforms(w: World, n: Net, u: UserId)
    requires NetOk(w, n) && AllInformed(w, n) && u in n.links && n.links[u].answer.Some?
    ensures AllInformed(w, n.(links := n.links[u := SettleAnswer(w, n.links[u])]))
  {
    hide Informed, MembersOk, LinkOk, Conveyed, SettleAnswer, KeysOk;
    SettleInformed(w, n.epoch, n.members, u, n.links[u]);
    OneInformed(w, n, u, SettleAnswer(w, n.links[u]));
  }

  lemma {:induction false} RunsInform(w: World, n: Net, moves: seq<Move>)
    requires NetOk(w, n) && AllInformed(w, n) && CanRun(w, n, moves)
    ensures NetOk(w, RunNet(w, n, moves)) && AllInformed(w, RunNet(w, n, moves))
    decreases |moves|
  {
    hide NetOk, AllInformed, Enabled, Next, KeysOk;
    if moves != [] {
      NextOk(w, n, moves[0]);
      NextInforms(w, n, moves[0]);
      RunsInform(w, Next(w, n, moves[0]), moves[1..]);
    }
  }
}
