/** Runs of a whole room: every step keeps each client's keys in order, and loses no wrap. */
module NetRuns {
  import opened Collections
  import opened KeyModel
  import opened KeyInvariants
  import opened KeyTheorems
  import opened KeyRuns
  import opened NetModel
  import opened NetSafety
  import opened NetArrival

  ghost predicate InboxOk(w: World, at: Epoch, members: Members, u: UserId, inbox: seq<Op>) {
    forall i :: 0 <= i < |inbox| ==> MessageOk(w, at, members, u, inbox[i])
  }

  ghost predicate LinkOk(w: World, at: Epoch, members: Members, u: UserId, l: Link) {
    && u in w.accounts
    && KeysOk(w, at, members, u, l.keys)
    && InboxOk(w, at, members, u, l.inbox)
    && RequestsOk(at, members, u, l.outbox)
    && (l.answer.Some? ==> AnswerOk(w, at, members, u, l.answer.value))
  }

  /** The last wrap from `a` under `epoch` among some events. */
  ghost function LastIn(inbox: seq<Op>, a: UserId, epoch: Epoch): Option<Blob> {
    if inbox == [] then None else
    var last := inbox[|inbox| - 1];
    if last.KeyFrom? && last.sender == a && last.epoch == epoch then Some(last.blob)
    else LastIn(inbox[..|inbox| - 1], a, epoch)
  }

  lemma {:induction false} LastInOf(first: seq<Op>, second: seq<Op>, a: UserId, epoch: Epoch)
    ensures LastIn(first + second, a, epoch) == Newer(LastIn(second, a, epoch), LastIn(first, a, epoch))
    decreases |second|
  {
    if second == [] {
      assert first + second == first;
    } else {
      var shorter := second[..|second| - 1];
      assert (first + second)[..|first + second| - 1] == first + shorter;
      LastInOf(first, shorter, a, epoch);
    }
  }

  /** The newest wrap on its way from `a` to `b`: events are ahead of requests. */
  ghost function OnItsWay(a: UserId, la: Link, b: UserId, lb: Link, epoch: Epoch): Option<Blob> {
    Newer(LastOut(la.outbox, b, epoch), LastIn(lb.inbox, a, epoch))
  }

  /** Whether `a` wrapped its secret of the room's epoch to `b`, who isn't deaf to it, and the
      server didn't refuse the request. */
  ghost predicate IsOwed(w: World, at: Epoch, la: Link, b: UserId, lb: Link)
    requires b in w.accounts
  {
    IsCurrent(w, at, la.keys) && Gave(w, la.keys, b) && !IsDeaf(w, at, lb.keys) && la.keys.mySecret.value !in la.refused
  }

  /** If `a`'s secret of the room's epoch was wrapped to `b`, then that wrap is the newest one
      on its way there, or has arrived and is held or stored. */
  ghost predicate Conveyed(w: World, at: Epoch, a: UserId, la: Link, b: UserId, lb: Link)
    requires a in w.accounts && b in w.accounts
  {
    IsOwed(w, at, la, b, lb) ==>
      var wrap := WrapOf(w, a, b, at, la.keys.mySecret.value);
      var coming := OnItsWay(a, la, b, lb, at);
      if coming.Some? then coming.value == wrap else Reached(lb.keys, a, at, wrap)
  }

  ghost predicate NetOk(w: World, n: Net) {
    && Honest(w) && n.links.Keys == w.accounts.Keys && n.members.Keys <= n.links.Keys
    && 0 <= n.epoch && (n.members.Keys != {} ==> 0 < n.epoch)
    && (forall u :: u in n.links ==> LinkOk(w, n.epoch, n.members, u, n.links[u]))
    && (forall a, b :: a in n.links && b in n.links ==> Conveyed(w, n.epoch, a, n.links[a], b, n.links[b]))
  }

  // ---- A client's own steps ------------------------------------------------------------

  lemma MoreRequests(at: Epoch, members: Members, u: UserId, first: seq<Publish>, second: seq<Publish>)
    requires RequestsOk(at, members, u, first) && RequestsOk(at, members, u, second)
    ensures RequestsOk(at, members, u, first + second)
  {
  }

  lemma MessageKeepsOk(w: World, at: Epoch, members: Members, u: UserId, k: Keys, op: Op)
    requires KeysOk(w, at, members, u, k) && u in w.accounts && MessageOk(w, at, members, u, op)
    ensures var (t, requests) := Apply(k, Step(op, w.now, w.unix));
      KeysOk(w, at, members, u, t) && RequestsOk(at, members, u, requests) && Sends(w, at, u, k, t, requests)
  {
    hide KeysOk, ListOk, Sends, PeersChanged, SetPresence, ReapplyPeers, SenderKey;
    match op
    case RoomState(room, epoch, peers) =>
      StateOk(w, at, members, u, k, epoch, peers);
      StateRequestOk(w, at, members, u, k, epoch, peers);
      StateSends(w, at, members, u, k, epoch, peers);
    case Shown(user, where) => ShownOk(w, at, members, u, k, user, where);
    case KeyFrom(sender, epoch, blob) => KeyFromOk(w, at, members, u, k, sender, epoch, blob);
  }

  lemma DeliverKeepsOk(w: World, at: Epoch, members: Members, u: UserId, l: Link)
    requires LinkOk(w, at, members, u, l) && l.inbox != []
    ensures LinkOk(w, at, members, u, DeliverNext(w, l))
    ensures exists requests ::
      && DeliverNext(w, l).outbox == l.outbox + requests && Sends(w, at, u, l.keys, DeliverNext(w, l).keys, requests)
  {
    hide KeysOk, ListOk, Sends, MessageOk, Apply, RequestsOk;
    var op := l.inbox[0];
    var (t, requests) := Apply(l.keys, Step(op, w.now, w.unix));
    MessageKeepsOk(w, at, members, u, l.keys, op);
    MoreRequests(at, members, u, l.outbox, requests);
  }

  lemma SettleKeepsOk(w: World, at: Epoch, members: Members, u: UserId, l: Link)
    requires LinkOk(w, at, members, u, l) && l.answer.Some?
    ensures LinkOk(w, at, members, u, SettleAnswer(w, l))
    ensures exists requests ::
      && SettleAnswer(w, l).outbox == l.outbox + requests && Sends(w, at, u, l.keys, SettleAnswer(w, l).keys, requests)
  {
    hide KeysOk, ListOk, Sends, MessageOk, Apply, RequestsOk;
    var op := l.answer.value;
    AnswerKeepsOk(w, at, members, u, l.keys, op);
    MoreRequests(at, members, u, l.outbox, Apply(l.keys, Step(op, w.now, w.unix)).1);
  }

  // ---- The pairs a client is in --------------------------------------------------------

  /** As a sender. */
  lemma SenderConveys(w: World, at: Epoch, u: UserId, l: Link, m: Link, requests: seq<Publish>, b: UserId, lb: Link)
    requires u in w.accounts && b in w.accounts && Conveyed(w, at, u, l, b, lb)
    requires m.outbox == l.outbox + requests && m.refused == l.refused && Sends(w, at, u, l.keys, m.keys, requests)
    ensures Conveyed(w, at, u, m, b, lb)
  {
    hide IsDeaf, Reached;
    if IsOwed(w, at, m, b, lb) {
      assert SendsTo(w, at, u, l.keys, m.keys, requests, b);
      LastOutOf(l.outbox, requests, b, at);
    }
  }

  /** Whoever was given a secret of the room's epoch is another member. */
  lemma GivenToMembers(w: World, at: Epoch, members: Members, a: UserId, la: Link, b: UserId)
    requires LinkOk(w, at, members, a, la) && b in w.accounts && IsCurrent(w, at, la.keys) && Gave(w, la.keys, b)
    ensures b in members && b != a
  {
    hide Core, HasSecret, EarlyOnesWait, StatesOk, PeerSet;
    PeerSetHas(la.keys.peers, b, KeyOf(w, b));
  }

  /** As a receiver of an event. */
  lemma DeliverConveys(w: World, at: Epoch, members: Members, a: UserId, la: Link, u: UserId, l: Link)
    requires LinkOk(w, at, members, u, l) && l.inbox != [] && HasRoomForEarly(l.keys, l.inbox[0])
    requires a in w.accounts && Conveyed(w, at, a, la, u, l)
    ensures Conveyed(w, at, a, la, u, DeliverNext(w, l))
  {
    hide KeysOk, ListOk, Reached, IsDeaf, Gave, PeersChanged, SenderKey, ReapplyPeers, SetPresence;
    EventStays(w, at, members, u, l.keys, l.inbox[0], at);
    if IsOwed(w, at, la, u, l) {
      var op, rest, secret := l.inbox[0], l.inbox[1..], la.keys.mySecret.value;
      assert l.inbox == [op] + rest;
      LastInOf([op], rest, a, at);
      FirstIn(op, a, at);
      if OnItsWay(a, la, u, DeliverNext(w, l), at).None? {
        match op
        case RoomState(room, epoch, peers) => StateKeepsReached(w, at, members, u, l.keys, epoch, peers, a, secret);
        case Shown(user, where) => ShownKeepsReached(w, at, members, u, l.keys, user, where, a, secret);
        case KeyFrom(sender, epoch, blob) =>
          if (sender, epoch) == (a, at) {
            KeyReaches(w, at, members, u, l.keys, a, secret);
          } else {
            OtherKeyKeepsReached(l.keys, sender, epoch, blob, w.now, a, at, WrapOf(w, a, u, at, secret));
          }
      }
    }
  }

  lemma FirstIn(op: Op, a: UserId, epoch: Epoch)
    ensures LastIn([op], a, epoch) == if op.KeyFrom? && op.sender == a && op.epoch == epoch then Some(op.blob) else None
  {
    assert [op][..0] == [];
  }

  /** As a receiver of an answer. */
  lemma SettleConveys(w: World, at: Epoch, members: Members, a: UserId, la: Link, u: UserId, l: Link)
    requires LinkOk(w, at, members, u, l) && LinkOk(w, at, members, a, la) && l.answer.Some?
    requires Conveyed(w, at, a, la, u, l)
    ensures Conveyed(w, at, a, la, u, SettleAnswer(w, l))
  {
    hide KeysOk, ListOk, Reached, Apply, IsDeaf;
    if IsCurrent(w, at, la.keys) && Gave(w, la.keys, u) {
      GivenToMembers(w, at, members, a, la, u);
      RoomIs(w, at, members, u, l.keys);
      AnswerPlaces(w, l.keys, l.answer.value, at);
      if IsOwed(w, at, la, u, l) && OnItsWay(a, la, u, l, at).None? {
        AnswerKeepsReached(w, at, members, u, l.keys, l.answer.value, a, la.keys.mySecret.value);
      }
    }
  }

  lemma RoomIs(w: World, at: Epoch, members: Members, u: UserId, k: Keys)
    requires KeysOk(w, at, members, u, k)
    ensures k.room.Some? ==> k.room.value == w.room
  {
    hide Inv, StatesOk, PeersOk;
  }

  /** As one who acts on a kick. */
  lemma PutOutConveys(w: World, at: Epoch, members: Members, a: UserId, la: Link, u: UserId, l: Link)
    requires LinkOk(w, at, members, u, l) && l.kicks > 0 && 0 < at
    requires a in w.accounts && Conveyed(w, at, a, la, u, l)
    ensures Conveyed(w, at, a, la, u, ActOnKick(w, l))
  {
    hide KeysOk, ListOk, Reached, Apply, IsDeaf, Gave;
    if l.keys.room == Some(w.room) {
      KickDeafens(w, at, members, u, l.keys);
      if IsOwed(w, at, la, u, ActOnKick(w, l)) && OnItsWay(a, la, u, l, at).None? {
        KickKeepsReached(w, at, members, u, l.keys, a, WrapOf(w, a, u, at, la.keys.mySecret.value));
      }
    }
  }

  /** As a sender whose request is refused: whoever's wrap it held isn't owed it any more. */
  lemma RefuseConveys(w: World, at: Epoch, u: UserId, l: Link, b: UserId, lb: Link)
    requires u in w.accounts && b in w.accounts && Conveyed(w, at, u, l, b, lb) && l.outbox != []
    ensures Conveyed(w, at, u, RefuseNext(l), b, lb)
  {
    hide Reached, IsDeaf, IsCurrent, Gave;
    NextRequest(l.outbox, b, at);
    var p := l.outbox[0];
    if p.epoch == at && b in p.wrapped {
      assert p.wrapped[b].Sealed? ==> p.wrapped[b].secret in SecretsOf(p);
    }
  }

  // ---- The server's steps --------------------------------------------------------------

  lemma TellKeepsOk(w: World, at: Epoch, members: Members, u: UserId, l: Link, op: Op)
    requires LinkOk(w, at, members, u, l) && MessageOk(w, at, members, u, op)
    ensures LinkOk(w, at, members, u, l.(inbox := l.inbox + [op]))
  {
    hide KeysOk, MessageOk, AnswerOk, RequestsOk;
  }

  lemma TellConveys(w: World, at: Epoch, a: UserId, la: Link, b: UserId, lb: Link, op: Op)
    requires a in w.accounts && b in w.accounts && Conveyed(w, at, a, la, b, lb)
    requires !(op.KeyFrom? && op.sender == a && op.epoch == at)
    ensures Conveyed(w, at, a, la, b, lb.(inbox := lb.inbox + [op]))
  {
    LastInOf(lb.inbox, [op], a, at);
    FirstIn(op, a, at);
  }

  /** What a sender's own inbox and answer hold doesn't matter. */
  lemma SameConveyed(w: World, at: Epoch, a: UserId, la: Link, ma: Link, b: UserId, lb: Link, mb: Link)
    requires a in w.accounts && b in w.accounts && Conveyed(w, at, a, la, b, lb)
    requires ma.keys == la.keys && ma.outbox == la.outbox && ma.refused == la.refused && mb.keys == lb.keys && mb.inbox == lb.inbox
    ensures Conveyed(w, at, a, ma, b, mb)
  {
  }

  /** Once the room has moved to a later epoch, nothing is of its epoch any more. */
  lemma LaterKeysOk(w: World, at: Epoch, members: Members, u: UserId, k: Keys, later: Epoch, others: Members)
    requires KeysOk(w, at, members, u, k) && at < later
    ensures KeysOk(w, later, others, u, k) && !IsCurrent(w, later, k)
  {
    hide Inv, Describes, Fixed;
    assert KeysOk(w, later, others, u, k);
  }

  lemma LaterOk(w: World, at: Epoch, members: Members, u: UserId, l: Link, later: Epoch, others: Members)
    requires LinkOk(w, at, members, u, l) && at < later
    requires l.answer.Some? && u in others ==> u in members
    ensures LinkOk(w, later, others, u, l)
    ensures forall b, lb :: b in w.accounts ==> Conveyed(w, later, u, l, b, lb)
  {
    hide KeysOk, Describes, Fixed;
    LaterKeysOk(w, at, members, u, l.keys, later, others);
  }

  /** Every link told the same thing at one epoch. */
  lemma ToldOk(w: World, n: Net, whom: set<UserId>, op: Op)
    requires NetOk(w, n) && !op.KeyFrom?
    requires forall u :: u in whom ==> MessageOk(w, n.epoch, n.members, u, op)
    ensures NetOk(w, n.(links := Tell(n.links, whom, op)))
  {
    hide LinkOk, Conveyed, MessageOk, Honest, KeysOk;
    var m := n.(links := Tell(n.links, whom, op));
    forall u | u in m.links ensures LinkOk(w, m.epoch, m.members, u, m.links[u]) {
      if u in whom {
        TellKeepsOk(w, n.epoch, n.members, u, n.links[u], op);
      }
    }
    forall a, b | a in m.links && b in m.links ensures Conveyed(w, m.epoch, a, m.links[a], b, m.links[b]) {
      TellConveys(w, n.epoch, a, n.links[a], b, n.links[b], op);
      SameConveyed(w, n.epoch, a, n.links[a], m.links[a], b, n.links[b].(inbox := m.links[b].inbox), m.links[b]);
    }
    assert m.links.Keys == n.links.Keys;
  }

  /** The room moves to a later epoch, and so far nobody was told. */
  lemma BumpedOk(w: World, n: Net, members: Members, nextId: MediaId)
    requires NetOk(w, n) && members.Keys <= n.links.Keys
    requires forall u :: u in members && u !in n.members ==> u in n.links && n.links[u].answer.None?
    ensures NetOk(w, Net(n.epoch + 1, members, nextId, n.links))
  {
    hide LinkOk, Conveyed, Honest, KeysOk;
    forall u | u in n.links ensures LinkOk(w, n.epoch + 1, members, u, n.links[u]) {
      LaterOk(w, n.epoch, n.members, u, n.links[u], n.epoch + 1, members);
    }
    forall a, b | a in n.links && b in n.links ensures Conveyed(w, n.epoch + 1, a, n.links[a], b, n.links[b]) {
      LaterOk(w, n.epoch, n.members, a, n.links[a], n.epoch + 1, members);
    }
  }

  /** One client changed, and the pairs it is in hold. */
  lemma ReplacedOk(w: World, n: Net, u: UserId, l: Link)
    requires NetOk(w, n) && u in n.links && LinkOk(w, n.epoch, n.members, u, l)
    requires forall b :: b in n.links && b != u ==> Conveyed(w, n.epoch, u, l, b, n.links[b])
    requires forall a :: a in n.links && a != u ==> Conveyed(w, n.epoch, a, n.links[a], u, l)
    ensures NetOk(w, n.(links := n.links[u := l]))
  {
    hide KeysOk, InboxOk, RequestsOk, AnswerOk, Honest, OnItsWay, Reached;
    if IsCurrent(w, n.epoch, l.keys) && Gave(w, l.keys, u) {
      GivenToMembers(w, n.epoch, n.members, u, l, u);
    }
    hide Conveyed, LinkOk;
    assert n.links[u := l].Keys == n.links.Keys;
  }

  lemma AnsweredOk(w: World, n: Net, u: UserId, op: Op)
    requires NetOk(w, n) && u in n.links && AnswerOk(w, n.epoch, n.members, u, op)
    ensures NetOk(w, n.(links := n.links[u := n.links[u].(answer := Some(op))]))
  {
    hide KeysOk, AnswerOk, Honest, Conveyed;
    var l := n.links[u].(answer := Some(op));
    forall b | b in n.links && b != u
      ensures Conveyed(w, n.epoch, u, l, b, n.links[b]) && Conveyed(w, n.epoch, b, n.links[b], u, l) {
      SameConveyed(w, n.epoch, u, n.links[u], l, b, n.links[b], n.links[b]);
      SameConveyed(w, n.epoch, b, n.links[b], n.links[b], u, n.links[u], l);
    }
    ReplacedOk(w, n, u, l);
  }

  lemma DescribedAreFixed(w: World, peers: seq<Peer>, members: Members)
    requires Describes(w, peers, members)
    ensures Fixed(w, peers)
  {
  }

  /** Everyone is told where `u` is shown, after the members were told of the new epoch. */
  lemma MovedOk(w: World, n: Net, members: Members, nextId: MediaId, told: set<UserId>, peers: seq<Peer>, shown: Op)
    requires NetOk(w, n) && members.Keys <= n.links.Keys && told <= members.Keys && shown.Shown?
    requires forall u :: u in members && u !in n.members ==> u in n.links && n.links[u].answer.None?
    requires Describes(w, peers, members)
    ensures NetOk(w, Net(n.epoch + 1, members, nextId,
                         Tell(Tell(n.links, told, RoomState(w.room, n.epoch + 1, peers)), n.links.Keys, shown)))
  {
    hide LinkOk, Conveyed, Honest, Describes, Fixed, KeysOk;
    var bumped := Net(n.epoch + 1, members, nextId, n.links);
    BumpedOk(w, n, members, nextId);
    DescribedAreFixed(w, peers, members);
    ToldOk(w, bumped, told, RoomState(w.room, n.epoch + 1, peers));
    var informed := bumped.(links := Tell(bumped.links, told, RoomState(w.room, n.epoch + 1, peers)));
    assert informed.links.Keys == n.links.Keys;
    ToldOk(w, informed, n.links.Keys, shown);
  }

  lemma EnterOk(w: World, n: Net, u: UserId, peers: seq<Peer>)
    requires NetOk(w, n) && Enabled(w, n, Enter(u, peers))
    ensures NetOk(w, EnterRoomOf(w, n, u, peers))
  {
    hide Conveyed, Honest, Describes, Fixed, InboxOk, RequestsOk, KeysOk, Tell;
    var members := With(w, n, u);
    MovedOk(w, n, members, n.nextId + 3, n.members.Keys, peers, Shown(u, Some(w.room)));
    var told := Tell(Tell(n.links, n.members.Keys, RoomState(w.room, n.epoch + 1, peers)), n.links.Keys, Shown(u, Some(w.room)));
    ToldTwice(n.links, n.members.Keys, RoomState(w.room, n.epoch + 1, peers), n.links.Keys, Shown(u, Some(w.room)));
    DescribedAreFixed(w, peers, members);
    AnsweredOk(w, Net(n.epoch + 1, members, n.nextId + 3, told), u,
               Placement(Some(w.room), n.epoch + 1, Some(TracksFrom(n.nextId)), peers));
  }

  /** Telling changes inboxes alone. */
  lemma ToldTwice(links: map<UserId, Link>, first: set<UserId>, op: Op, second: set<UserId>, next: Op)
    ensures var told := Tell(Tell(links, first, op), second, next);
      told.Keys == links.Keys && forall u :: u in links ==> told[u] == links[u].(inbox := told[u].inbox)
  {
  }

  lemma OutOk(w: World, n: Net, u: UserId, peers: seq<Peer>)
    requires NetOk(w, n) && u in n.members && Describes(w, peers, n.members - {u})
    ensures NetOk(w, TakeOut(w, n, u, peers))
  {
    hide LinkOk, Conveyed, Honest, Describes, KeysOk;
    assert (n.members - {u}).Keys == n.members.Keys - {u};
    MovedOk(w, n, n.members - {u}, n.nextId, n.members.Keys - {u}, peers, Shown(u, None));
  }

  lemma LeaveOk(w: World, n: Net, u: UserId, peers: seq<Peer>)
    requires NetOk(w, n) && Enabled(w, n, Leave(u, peers))
    ensures NetOk(w, LeaveRoomOf(w, n, u, peers))
  {
    hide LinkOk, Conveyed, Honest, Describes, Tell, KeysOk;
    OutOk(w, n, u, peers);
    ToldTwice(n.links, n.members.Keys - {u}, RoomState(w.room, n.epoch + 1, peers), n.links.Keys, Shown(u, None));
    AnsweredOk(w, TakeOut(w, n, u, peers), u, TO_LOBBY);
  }

  lemma KickOk(w: World, n: Net, u: UserId, peers: seq<Peer>, told: bool)
    requires NetOk(w, n) && Enabled(w, n, Kick(u, peers, told))
    ensures NetOk(w, KickedOut(w, n, u, peers, told))
  {
    hide LinkOk, Conveyed, Honest, Describes, Tell, KeysOk;
    OutOk(w, n, u, peers);
    var out := TakeOut(w, n, u, peers);
    ToldTwice(n.links, n.members.Keys - {u}, RoomState(w.room, n.epoch + 1, peers), n.links.Keys, Shown(u, None));
    if told {
      SameLinkOk(w, out, u, out.links[u].(kicks := out.links[u].kicks + 1));
    }
  }

  /** Kicks to come say nothing of keys. */
  lemma SameLinkOk(w: World, n: Net, u: UserId, l: Link)
    requires NetOk(w, n) && u in n.links && l == n.links[u].(kicks := l.kicks)
    ensures NetOk(w, n.(links := n.links[u := l]))
  {
    hide KeysOk, AnswerOk, Honest, Conveyed;
    forall b | b in n.links && b != u
      ensures Conveyed(w, n.epoch, u, l, b, n.links[b]) && Conveyed(w, n.epoch, b, n.links[b], u, l) {
      SameConveyed(w, n.epoch, u, n.links[u], l, b, n.links[b], n.links[b]);
      SameConveyed(w, n.epoch, b, n.links[b], n.links[b], u, n.links[u], l);
    }
    ReplacedOk(w, n, u, l);
  }

  lemma PutOutOk(w: World, n: Net, u: UserId)
    requires NetOk(w, n) && u in n.links && n.links[u].kicks > 0
    ensures NetOk(w, n.(links := n.links[u := ActOnKick(w, n.links[u])]))
  {
    hide Conveyed, Honest, MessageOk, KeysOk, RequestsOk, ListOk, Apply, Sends, AnswerOk, InboxOk;
    var l := n.links[u];
    var m := ActOnKick(w, l);
    LobbyOk(w, n.epoch, n.members, u, l.keys);
    assert l.outbox + [] == l.outbox;
    forall b | b in n.links && b != u
      ensures Conveyed(w, n.epoch, u, m, b, n.links[b]) && Conveyed(w, n.epoch, b, n.links[b], u, m) {
      if l.keys.room == Some(w.room) {
        SenderConveys(w, n.epoch, u, l, m, [], b, n.links[b]);
      } else {
        SameConveyed(w, n.epoch, u, l, m, b, n.links[b], n.links[b]);
      }
      PutOutConveysTo(w, n, b, u);
    }
    ReplacedOk(w, n, u, m);
  }

  lemma PutOutConveysTo(w: World, n: Net, a: UserId, u: UserId)
    requires NetOk(w, n) && u in n.links && n.links[u].kicks > 0 && a in n.links && a != u
    ensures a in w.accounts && u in w.accounts && Conveyed(w, n.epoch, a, n.links[a], u, ActOnKick(w, n.links[u]))
  {
    hide Honest, KeysOk, ListOk, Apply, OnItsWay, Reached, IsDeaf;
    if 0 < n.epoch {
      PutOutConveys(w, n.epoch, n.members, a, n.links[a], u, n.links[u]);
    } else if IsCurrent(w, n.epoch, n.links[a].keys) && Gave(w, n.links[a].keys, u) {
      GivenToMembers(w, n.epoch, n.members, a, n.links[a], u);
    }
  }

  lemma RefuseOk(w: World, n: Net, u: UserId)
    requires NetOk(w, n) && u in n.links && n.links[u].outbox != []
    ensures NetOk(w, n.(links := n.links[u := RefuseNext(n.links[u])]))
  {
    hide Conveyed, Honest, KeysOk, AnswerOk, InboxOk;
    var l, m := n.links[u], RefuseNext(n.links[u]);
    forall b | b in n.links && b != u
      ensures Conveyed(w, n.epoch, u, m, b, n.links[b]) && Conveyed(w, n.epoch, b, n.links[b], u, m) {
      RefuseConveys(w, n.epoch, u, l, b, n.links[b]);
      SameConveyed(w, n.epoch, b, n.links[b], n.links[b], u, l, m);
    }
    ReplacedOk(w, n, u, m);
  }

  lemma AskOk(w: World, n: Net, u: UserId, peers: seq<Peer>)
    requires NetOk(w, n) && Enabled(w, n, Ask(u, peers))
    ensures NetOk(w, Next(w, n, Ask(u, peers)))
  {
    hide Conveyed, Honest, Describes, Fixed, InboxOk, RequestsOk, KeysOk;
    var k := n.links[u].keys;
    DescribedAreFixed(w, peers, n.members);
    AnsweredOk(w, n, u, AnswerAgain(w, n, u, peers));
  }

  lemma RestartKeysOk(w: World, at: Epoch, members: Members, u: UserId, k: Keys)
    requires KeysOk(w, at, members, u, k) && u !in members
    ensures KeysOk(w, at, members, u, Restart(w, k, members).keys)
  {
    hide Inv, PresenceOf;
    var started := New(k.me, k.server, k.weak, k.encryption, k.floors, w.now, k.serial);
    NewKeeps(k.me, k.server, k.weak, k.encryption, k.floors, w.now, k.serial);
    RestartInv(started, PresenceOf(w, members), w.now);
    assert KeysOk(w, at, members, u, Restart(w, k, members).keys);
  }

  lemma RestartInv(s: Keys, present: map<UserId, RoomId>, clock: Time)
    requires Inv(s, clock)
    ensures Inv(s.(present := present), clock)
  {
    hide Core, DeriveAll, PeerSet;
    SameCore(s, s.(present := present), clock);
  }

  lemma RestartOk(w: World, n: Net, u: UserId)
    requires NetOk(w, n) && u in n.links && u !in n.members
    ensures NetOk(w, n.(links := n.links[u := Restart(w, n.links[u].keys, n.members)]))
  {
    hide KeysOk, Honest, OnItsWay, Reached;
    var l := Restart(w, n.links[u].keys, n.members);
    RestartKeysOk(w, n.epoch, n.members, u, n.links[u].keys);
    forall a | a in n.links && a != u ensures Conveyed(w, n.epoch, a, n.links[a], u, l) {
      if IsCurrent(w, n.epoch, n.links[a].keys) && Gave(w, n.links[a].keys, u) {
        GivenToMembers(w, n.epoch, n.members, a, n.links[a], u);
      }
    }
    ReplacedOk(w, n, u, l);
  }

  lemma ReconnectOk(w: World, n: Net, u: UserId, peers: seq<Peer>)
    requires NetOk(w, n) && Enabled(w, n, Reconnect(u, peers))
    ensures NetOk(w, Next(w, n, Reconnect(u, peers)))
  {
    hide LinkOk, Conveyed, Honest, Describes, Tell, KeysOk;
    var out := if u in n.members then TakeOut(w, n, u, peers) else n;
    ToldTwice(n.links, n.members.Keys - {u}, RoomState(w.room, n.epoch + 1, peers), n.links.Keys, Shown(u, None));
    if u in n.members {
      OutOk(w, n, u, peers);
    }
    RestartOk(w, out, u);
    assert out.links[u].keys == n.links[u].keys;
  }

  // ---- Requests the server handles -----------------------------------------------------

  lemma HandedOk(w: World, at: Epoch, members: Members, u: UserId, l: Link, sender: UserId, p: Publish)
    requires LinkOk(w, at, members, u, l)
    ensures LinkOk(w, at, members, u, l.(inbox := l.inbox + [KeyFrom(sender, p.epoch, if u in p.wrapped then p.wrapped[u] else Junk(0))]))
  {
    hide KeysOk, AnswerOk, RequestsOk;
  }

  lemma NextRequest(outbox: seq<Publish>, b: UserId, epoch: Epoch)
    requires outbox != []
    ensures LastOut(outbox, b, epoch) ==
      Newer(LastOut(outbox[1..], b, epoch),
            if outbox[0].epoch == epoch && b in outbox[0].wrapped then Some(outbox[0].wrapped[b]) else None)
  {
    assert outbox == [outbox[0]] + outbox[1..];
    LastOutOf([outbox[0]], outbox[1..], b, epoch);
    assert [outbox[0]][..0] == [];
  }

  /** The wrap at the front of the requests becomes the last of the events. */
  lemma AcceptConveys(w: World, at: Epoch, a: UserId, la: Link, ma: Link, b: UserId, lb: Link, mb: Link, accepted: bool)
    requires a in w.accounts && b in w.accounts && Conveyed(w, at, a, la, b, lb) && la.outbox != []
    requires ma.keys == la.keys && ma.outbox == la.outbox[1..] && ma.refused == la.refused && mb.keys == lb.keys
    requires var p := la.outbox[0];
      && (p.epoch == at ==> accepted)
      && mb.inbox == if accepted && b in p.wrapped then lb.inbox + [KeyFrom(a, p.epoch, p.wrapped[b])] else lb.inbox
    ensures Conveyed(w, at, a, ma, b, mb)
  {
    hide Reached;
    var p := la.outbox[0];
    NextRequest(la.outbox, b, at);
    if accepted && b in p.wrapped {
      LastInOf(lb.inbox, [KeyFrom(a, p.epoch, p.wrapped[b])], a, at);
      FirstIn(KeyFrom(a, p.epoch, p.wrapped[b]), a, at);
    }
  }

  lemma AcceptOk(w: World, n: Net, u: UserId)
    requires NetOk(w, n) && u in n.links && n.links[u].outbox != []
    ensures NetOk(w, AcceptNext(n, u))
  {
    hide KeysOk, MessageOk, AnswerOk, Conveyed, Honest;
    var p, m := n.links[u].outbox[0], AcceptNext(n, u);
    assert RequestOk(n.epoch, n.members, u, p);
    forall b | b in n.links ensures LinkOk(w, n.epoch, n.members, b, m.links[b]) {
      HandedOk(w, n.epoch, n.members, b, n.links[b], u, p);
    }
    forall a, b | a in n.links && b in n.links ensures Conveyed(w, n.epoch, a, m.links[a], b, m.links[b]) {
      AcceptKeepsPair(w, n, u, a, b);
    }
    assert m.links.Keys == n.links.Keys;
  }

  lemma AcceptKeepsPair(w: World, n: Net, u: UserId, a: UserId, b: UserId)
    requires NetOk(w, n) && u in n.links && n.links[u].outbox != [] && a in n.links && b in n.links
    ensures var m := AcceptNext(n, u);
            a in m.links && b in m.links && Conveyed(w, n.epoch, a, m.links[a], b, m.links[b])
  {
    hide KeysOk, MessageOk, AnswerOk, Conveyed, Honest;
    var p, m := n.links[u].outbox[0], AcceptNext(n, u);
    assert RequestOk(n.epoch, n.members, u, p);
    if a == u {
      AcceptConveys(w, n.epoch, a, n.links[a], m.links[a], b, n.links[b], m.links[b], Accepted(n, u, p));
    } else if m.links[b].inbox == n.links[b].inbox {
      SameConveyed(w, n.epoch, a, n.links[a], m.links[a], b, n.links[b], m.links[b]);
    } else {
      var op := KeyFrom(u, p.epoch, p.wrapped[b]);
      TellConveys(w, n.epoch, a, n.links[a], b, n.links[b], op);
      SameConveyed(w, n.epoch, a, n.links[a], m.links[a], b, n.links[b].(inbox := n.links[b].inbox + [op]), m.links[b]);
    }
  }

  // ---- Events and answers the clients handle -------------------------------------------

  lemma DeliverOk(w: World, n: Net, u: UserId)
    requires NetOk(w, n) && Enabled(w, n, Deliver(u))
    ensures NetOk(w, Next(w, n, Deliver(u)))
  {
    hide Conveyed, Honest, MessageOk, KeysOk, RequestsOk, ListOk, Apply, Sends, AnswerOk;
    var l := n.links[u];
    var m := DeliverNext(w, l);
    DeliverKeepsOk(w, n.epoch, n.members, u, l);
    var requests :| m.outbox == l.outbox + requests && Sends(w, n.epoch, u, l.keys, m.keys, requests);
    forall b | b in n.links && b != u
      ensures Conveyed(w, n.epoch, u, m, b, n.links[b]) && Conveyed(w, n.epoch, b, n.links[b], u, m) {
      SenderConveys(w, n.epoch, u, l, m, requests, b, n.links[b]);
      DeliverConveys(w, n.epoch, n.members, b, n.links[b], u, l);
    }
    ReplacedOk(w, n, u, m);
  }

  lemma SettleOk(w: World, n: Net, u: UserId)
    requires NetOk(w, n) && Enabled(w, n, Settle(u))
    ensures NetOk(w, Next(w, n, Settle(u)))
  {
    hide Conveyed, Honest, MessageOk, KeysOk, RequestsOk, ListOk, Apply, Sends, AnswerOk, InboxOk;
    var l := n.links[u];
    var m := SettleAnswer(w, l);
    SettleKeepsOk(w, n.epoch, n.members, u, l);
    var requests :| m.outbox == l.outbox + requests && Sends(w, n.epoch, u, l.keys, m.keys, requests);
    forall b | b in n.links && b != u
      ensures Conveyed(w, n.epoch, u, m, b, n.links[b]) && Conveyed(w, n.epoch, b, n.links[b], u, m) {
      SenderConveys(w, n.epoch, u, l, m, requests, b, n.links[b]);
      SettleConveys(w, n.epoch, n.members, b, n.links[b], u, l);
    }
    ReplacedOk(w, n, u, m);
  }

  // ---- Every step, every run -----------------------------------------------------------

  lemma NextOk(w: World, n: Net, move: Move)
    requires NetOk(w, n) && Enabled(w, n, move)
    ensures NetOk(w, Next(w, n, move))
  {
    hide NetOk, Describes, DeliverNext, SettleAnswer, Tell, KeysOk;
    match move
    case Enter(u, peers) =>
      EnterOk(w, n, u, peers);
      ToldTwice(n.links, n.members.Keys, RoomState(w.room, n.epoch + 1, peers), n.links.Keys, Shown(u, Some(w.room)));
    case Leave(u, peers) =>
      LeaveOk(w, n, u, peers);
      ToldTwice(n.links, n.members.Keys - {u}, RoomState(w.room, n.epoch + 1, peers), n.links.Keys, Shown(u, None));
    case Ask(u, peers) => AskOk(w, n, u, peers);
    case Kick(u, peers, told) => KickOk(w, n, u, peers, told);
    case PutOut(u) => PutOutOk(w, n, u);
    case Refuse(u) => RefuseOk(w, n, u);
    case Refresh(peers) => RefreshOk(w, n, peers);
    case Announce(u) => AnnounceOk(w, n, u);
    case Reconnect(u, peers) => ReconnectOk(w, n, u, peers);
    case Accept(u) => AcceptOk(w, n, u);
    case Deliver(u) => DeliverOk(w, n, u);
    case Settle(u) => SettleOk(w, n, u);
  }

  lemma RefreshOk(w: World, n: Net, peers: seq<Peer>)
    requires NetOk(w, n) && Describes(w, peers, n.members)
    ensures NetOk(w, n.(links := Tell(n.links, n.members.Keys, RoomState(w.room, n.epoch, peers))))
  {
    hide LinkOk, Conveyed, Honest, Describes, Fixed, KeysOk;
    DescribedAreFixed(w, peers, n.members);
    ToldOk(w, n, n.members.Keys, RoomState(w.room, n.epoch, peers));
  }

  lemma AnnounceOk(w: World, n: Net, u: UserId)
    requires NetOk(w, n) && u in n.members
    ensures NetOk(w, n.(links := Tell(n.links, n.links.Keys, Shown(u, Some(w.room)))))
  {
    hide LinkOk, Conveyed, Honest, KeysOk;
    ToldOk(w, n, n.links.Keys, Shown(u, Some(w.room)));
  }

  ghost predicate CanRun(w: World, n: Net, moves: seq<Move>)
    decreases |moves|
  {
    moves != [] ==> Enabled(w, n, moves[0]) && CanRun(w, Next(w, n, moves[0]), moves[1..])
  }

  ghost function RunNet(w: World, n: Net, moves: seq<Move>): Net
    requires CanRun(w, n, moves)
    decreases |moves|
  {
    if moves == [] then n else RunNet(w, Next(w, n, moves[0]), moves[1..])
  }

  lemma {:induction false} RunsKeepNet(w: World, n: Net, moves: seq<Move>)
    requires NetOk(w, n) && CanRun(w, n, moves)
    ensures NetOk(w, RunNet(w, n, moves))
    decreases |moves|
  {
    hide NetOk, Enabled, Next, KeysOk;
    if moves != [] {
      NextOk(w, n, moves[0]);
      RunsKeepNet(w, Next(w, n, moves[0]), moves[1..]);
    }
  }

  // ---- No key is lost ------------------------------------------------------------------

  /** Everyone signed in, nobody in the room, and no floor beyond the room's epoch. */
  ghost predicate Starts(w: World, n: Net) {
    && Honest(w) && n.links.Keys == w.accounts.Keys && n.members == map[] && 0 <= n.epoch
    && forall u :: u in n.links ==> StartsAs(w, n, u)
  }

  ghost predicate StartsAs(w: World, n: Net, u: UserId)
    requires u in n.links
  {
    && u in w.accounts
    && n.links[u] == Restart(w, n.links[u].keys, n.members)
    && IsSelf(w, u, n.links[u].keys)
    && FloorBelow(n.links[u].keys, w.room, n.epoch + 1)
  }

  lemma StartKeysOk(w: World, n: Net, u: UserId)
    requires Starts(w, n) && u in n.links
    ensures LinkOk(w, n.epoch, n.members, u, n.links[u])
    ensures n.links[u].keys.mySecret.None?
  {
    hide Inv, PresenceOf;
    assert StartsAs(w, n, u);
    var k := n.links[u].keys;
    var started := New(k.me, k.server, k.weak, k.encryption, k.floors, w.now, k.serial);
    NewKeeps(k.me, k.server, k.weak, k.encryption, k.floors, w.now, k.serial);
    RestartInv(started, PresenceOf(w, n.members), w.now);
    assert KeysOk(w, n.epoch, n.members, u, k);
  }

  lemma StartOk(w: World, n: Net)
    requires Starts(w, n)
    ensures NetOk(w, n)
  {
    hide LinkOk, Honest, Gave, Reached, OnItsWay, KeysOk;
    forall u | u in n.links ensures LinkOk(w, n.epoch, n.members, u, n.links[u]) && n.links[u].keys.mySecret.None? {
      StartKeysOk(w, n, u);
    }
  }

  /** No sender key is lost: at every point of every run, if `a`'s secret of the room's epoch was
      wrapped to `b`, who hasn't left the room since that epoch began, and the request wasn't
      refused, then that very wrap is the newest one on its way from `a` to `b`, or, with
      none on its way, it is what `b` holds or has stored of `a` for that epoch. */
  lemma NoKeyIsLost(w: World, start: Net, moves: seq<Move>, a: UserId, b: UserId)
    requires Starts(w, start) && CanRun(w, start, moves)
    requires var n := RunNet(w, start, moves); a in n.links && b in n.links && a in w.accounts && b in w.accounts
    requires var n := RunNet(w, start, moves); IsOwed(w, n.epoch, n.links[a], b, n.links[b])
    ensures var n := RunNet(w, start, moves);
            var wrap := WrapOf(w, a, b, n.epoch, n.links[a].keys.mySecret.value);
            var coming := OnItsWay(a, n.links[a], b, n.links[b], n.epoch);
            if coming.Some? then coming.value == wrap else Reached(n.links[b].keys, a, n.epoch, wrap)
  {
    hide NetOk, Starts, CanRun, RunNet, IsCurrent, Gave, IsDeaf, OnItsWay, Reached, KeysOk;
    StartOk(w, start);
    RunsKeepNet(w, start, moves);
    WrapsAreConveyed(w, RunNet(w, start, moves), a, b);
  }

  lemma WrapsAreConveyed(w: World, n: Net, a: UserId, b: UserId)
    requires NetOk(w, n) && a in n.links && b in n.links
    ensures a in w.accounts && b in w.accounts && Conveyed(w, n.epoch, a, n.links[a], b, n.links[b])
  {
    hide KeysOk;
  }
}
