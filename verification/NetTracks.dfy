/** Whatever tracks a client takes for its own, they are of no other member. */
module NetTracks {
  import opened Collections
  import opened KeyModel
  import opened KeyRuns
  import opened NetModel
  import opened NetSafety
  import opened NetArrival
  import opened NetRuns
  import opened NetRest

  /** Tracks that `u` has, or had before, or is about to have. */
  ghost predicate Fits(n: Net, u: UserId, t: Tracks) {
    && t == TracksFrom(t.mic) && t.mic + 3 <= n.nextId
    && forall v :: v in n.members ==> (v == u && t == n.members[v]) || Apart(t, n.members[v])
  }

  ghost predicate OwnFits(n: Net, u: UserId, room: Option<RoomId>, tracks: Option<Tracks>) {
    (room.Some? ==> tracks.Some?) && (tracks.Some? ==> Fits(n, u, tracks.value))
  }

  ghost predicate LinkFits(n: Net, u: UserId, l: Link) {
    && OwnFits(n, u, l.keys.room, l.keys.myTracks)
    && (l.answer.Some? ==> l.answer.value.Placement? && OwnFits(n, u, l.answer.value.to, l.answer.value.tracks))
  }

  ghost predicate AllFit(n: Net) {
    MembersOk(n) && forall u :: u in n.links ==> LinkFits(n, u, n.links[u])
  }

  // ---- The room changes ----------------------------------------------------------------

  /** Whoever is in the later room was in the earlier one, or has ids that it had yet to give. */
  ghost predicate Follows(n: Net, m: Net) {
    && n.nextId <= m.nextId
    && forall v :: v in m.members ==> (v in n.members && m.members[v] == n.members[v]) || n.nextId <= m.members[v].mic
  }

  lemma FitsLater(n: Net, m: Net, u: UserId, t: Tracks)
    requires Fits(n, u, t) && Follows(n, m)
    ensures Fits(m, u, t)
  {
  }

  lemma StillFits(n: Net, m: Net, u: UserId, l: Link, k: Link)
    requires LinkFits(n, u, l) && Follows(n, m)
    requires k.keys.room == l.keys.room && k.keys.myTracks == l.keys.myTracks && k.answer == l.answer
    ensures LinkFits(m, u, k)
  {
    hide Fits, Follows;
    if l.keys.myTracks.Some? {
      FitsLater(n, m, u, l.keys.myTracks.value);
    }
    if l.answer.Some? && l.answer.value.tracks.Some? {
      FitsLater(n, m, u, l.answer.value.tracks.value);
    }
  }

  /** All links but one's keep their rooms, tracks and answers. */
  lemma RoomFits(n: Net, m: Net, but: Option<UserId>)
    requires AllFit(n) && Follows(n, m) && MembersOk(m) && m.links.Keys <= n.links.Keys
    requires forall v :: v in m.links && but != Some(v) ==>
      && m.links[v].keys.room == n.links[v].keys.room && m.links[v].keys.myTracks == n.links[v].keys.myTracks
      && m.links[v].answer == n.links[v].answer
    requires but.Some? && but.value in m.links ==> LinkFits(m, but.value, m.links[but.value])
    ensures AllFit(m)
  {
    hide LinkFits, Follows, MembersOk;
    forall v | v in m.links ensures LinkFits(m, v, m.links[v]) {
      if but != Some(v) {
        StillFits(n, m, v, n.links[v], m.links[v]);
      }
    }
  }

  lemma OneFits(n: Net, u: UserId, l: Link)
    requires AllFit(n) && u in n.links && LinkFits(n, u, l)
    ensures AllFit(n.(links := n.links[u := l]))
  {
    hide LinkFits, MembersOk;
    var m := n.(links := n.links[u := l]);
    SameMembersOk(n, m);
    forall v | v in m.links ensures LinkFits(m, v, m.links[v]) {
      SameFits(n, m, v, m.links[v]);
    }
  }

  lemma SameFits(n: Net, m: Net, u: UserId, l: Link)
    requires LinkFits(n, u, l) && m.members == n.members && m.nextId == n.nextId
    ensures LinkFits(m, u, l)
  {
  }

  /** The tracks of a membership fit. */
  lemma MembersFit(n: Net, u: UserId)
    requires MembersOk(n) && u in n.members
    ensures Fits(n, u, n.members[u])
  {
  }

  // ---- Every step ----------------------------------------------------------------------

  lemma EnterFits(w: World, n: Net, u: UserId, peers: seq<Peer>)
    requires AllFit(n) && Enabled(w, n, Enter(u, peers))
    ensures AllFit(EnterRoomOf(w, n, u, peers))
  {
    hide Describes, LinkFits, Tell, MembersOk;
    var m := EnterRoomOf(w, n, u, peers);
    ToldTwice(n.links, n.members.Keys, RoomState(w.room, n.epoch + 1, peers), n.links.Keys, Shown(u, Some(w.room)));
    MembersStayOk(w, n, u);
    SameMembersOk(Net(n.epoch + 1, With(w, n, u), n.nextId + 3, n.links), m);
    MembersFit(m, u);
    var told := m.links[u].(answer := n.links[u].answer);
    StillFits(n, m, u, n.links[u], told);
    AnsweredFits(m, u, told, m.links[u].answer.value);
    RoomFits(n, m, Some(u));
  }

  lemma AnsweredFits(n: Net, u: UserId, l: Link, op: Op)
    requires LinkFits(n, u, l) && op.Placement? && (op.to.Some? ==> op.tracks.Some?) && (op.tracks.Some? ==> Fits(n, u, op.tracks.value))
    ensures LinkFits(n, u, l.(answer := Some(op)))
  {
  }

  /** Taking someone out leaves every client with the tracks it has, and adds no answer but to the
      lobby. */
  lemma OutFits(w: World, n: Net, u: UserId, peers: seq<Peer>, l: Link)
    requires AllFit(n) && u in n.links && u in n.members
    requires var out := TakeOut(w, n, u, peers); l.keys == n.links[u].keys && (l.answer == n.links[u].answer || l.answer == Some(TO_LOBBY))
    ensures var out := TakeOut(w, n, u, peers); AllFit(out) && AllFit(out.(links := out.links[u := l]))
  {
    hide LinkFits, Tell, MembersOk;
    var out := TakeOut(w, n, u, peers);
    ToldTwice(n.links, n.members.Keys - {u}, RoomState(w.room, n.epoch + 1, peers), n.links.Keys, Shown(u, None));
    FewerMembersOk(n, u, n.epoch + 1, out.links);
    RoomFits(n, out, None);
    StillFits(n, out, u, n.links[u], l.(answer := n.links[u].answer));
    AnsweredFits(out, u, l.(answer := n.links[u].answer), TO_LOBBY);
    OneFits(out, u, l);
  }

  lemma AskFits(w: World, n: Net, u: UserId, peers: seq<Peer>)
    requires AllFit(n) && u in n.links
    ensures AllFit(n.(links := n.links[u := n.links[u].(answer := Some(AnswerAgain(w, n, u, peers)))]))
  {
    hide LinkFits, MembersOk, Fits;
    if u in n.members {
      MembersFit(n, u);
    }
    AnsweredFits(n, u, n.links[u], AnswerAgain(w, n, u, peers));
    OneFits(n, u, n.links[u].(answer := Some(AnswerAgain(w, n, u, peers))));
  }

  /** A client that takes in an event keeps its tracks; with an answer it takes those it gives, or
      keeps its own. */
  lemma TakenFits(w: World, n: Net, u: UserId, l: Link, op: Op)
    requires LinkFits(n, u, l) && LinkOk(w, n.epoch, n.members, u, l)
    requires MessageOk(w, n.epoch, n.members, u, op) || l.answer == Some(op) || op == TO_LOBBY
    ensures var k := Apply(l.keys, Step(op, w.now, w.unix)).0; OwnFits(n, u, k.room, k.myTracks)
  {
    hide KeysOk, ListOk, Apply, Fits, InboxOk, RequestsOk;
    if op.Placement? {
      AnswerPlaces(w, l.keys, op, n.epoch);
    } else {
      EventStays(w, n.epoch, n.members, u, l.keys, op, n.epoch);
    }
  }

  lemma ReconnectFits(w: World, n: Net, u: UserId, peers: seq<Peer>)
    requires AllFit(n) && Enabled(w, n, Reconnect(u, peers))
    ensures AllFit(Restarted(w, n, u, peers))
  {
    hide Describes, Tell, MembersOk, TakeOut, Fits;
    var out := if u in n.members then TakeOut(w, n, u, peers) else n;
    if u in n.members {
      OutKeepsKeys(w, n, u, peers);
      OutFits(w, n, u, peers, out.links[u]);
    }
    OneFits(out, u, Restart(w, n.links[u].keys, out.members));
  }

  lemma NextFits(w: World, n: Net, move: Move)
    requires NetOk(w, n) && AllFit(n) && Enabled(w, n, move)
    ensures AllFit(Next(w, n, move))
  {
    hide Conveyed, Describes, LinkFits, MembersOk, KeysOk, TakeOut, EnterRoomOf, Restarted, AcceptNext, Take, Tell, AnswerAgain;
    match move
    case Enter(u, peers) => EnterFits(w, n, u, peers);
    case Leave(u, peers) =>
      var out := TakeOut(w, n, u, peers);
      OutKeepsKeys(w, n, u, peers);
      OutFits(w, n, u, peers, out.links[u].(answer := Some(TO_LOBBY)));
    case Ask(u, peers) => AskFits(w, n, u, peers);
    case Kick(u, peers, told) =>
      var out := TakeOut(w, n, u, peers);
      OutKeepsKeys(w, n, u, peers);
      OutFits(w, n, u, peers, out.links[u].(kicks := out.links[u].kicks + 1));
    case PutOut(u) => PutOutFits(w, n, u);
    case Refuse(u) =>
      SettingFits(n, u, RefuseNext(n.links[u]));
      OneFits(n, u, RefuseNext(n.links[u]));
    case Refresh(peers) => ToldFits(n, n.members.Keys, RoomState(w.room, n.epoch, peers));
    case Announce(u) => ToldFits(n, n.links.Keys, Shown(u, Some(w.room)));
    case Reconnect(u, peers) => ReconnectFits(w, n, u, peers);
    case Accept(u) => AcceptFits(n, u);
    case Deliver(u) => DeliverFits(w, n, u);
    case Settle(u) => SettleFits(w, n, u);
  }

  lemma OutKeepsKeys(w: World, n: Net, u: UserId, peers: seq<Peer>)
    requires u in n.links
    ensures var out := TakeOut(w, n, u, peers); u in out.links && out.links[u] == n.links[u].(inbox := out.links[u].inbox)
  {
    ToldTwice(n.links, n.members.Keys - {u}, RoomState(w.room, n.epoch + 1, peers), n.links.Keys, Shown(u, None));
  }

  lemma SettingFits(n: Net, u: UserId, l: Link)
    requires u in n.links && LinkFits(n, u, n.links[u]) && l.keys == n.links[u].keys && l.answer == n.links[u].answer
    ensures LinkFits(n, u, l)
  {
  }

  lemma ToldFits(n: Net, whom: set<UserId>, op: Op)
    requires AllFit(n)
    ensures AllFit(n.(links := Tell(n.links, whom, op)))
  {
    hide MembersOk, LinkFits;
    var m := n.(links := Tell(n.links, whom, op));
    SameMembersOk(n, m);
    RoomFits(n, m, None);
  }

  lemma AcceptFits(n: Net, u: UserId)
    requires AllFit(n) && u in n.links && n.links[u].outbox != []
    ensures AllFit(AcceptNext(n, u))
  {
    hide MembersOk, LinkFits;
    SameMembersOk(n, AcceptNext(n, u));
    RoomFits(n, AcceptNext(n, u), None);
  }

  lemma PutOutFits(w: World, n: Net, u: UserId)
    requires NetOk(w, n) && AllFit(n) && u in n.links && n.links[u].kicks > 0
    ensures AllFit(n.(links := n.links[u := ActOnKick(w, n.links[u])]))
  {
    hide Conveyed, MembersOk, LinkOk, Fits, Apply;
    assert LinkFits(n, u, n.links[u]);
    TakenFits(w, n, u, n.links[u], TO_LOBBY);
    OneFits(n, u, ActOnKick(w, n.links[u]));
  }

  lemma DeliverFits(w: World, n: Net, u: UserId)
    requires NetOk(w, n) && AllFit(n) && u in n.links && n.links[u].inbox != []
    ensures AllFit(n.(links := n.links[u := DeliverNext(w, n.links[u])]))
  {
    hide Conveyed, MembersOk, KeysOk, MessageOk, Fits, Apply;
    assert LinkFits(n, u, n.links[u]);
    TakenFits(w, n, u, n.links[u], n.links[u].inbox[0]);
    OneFits(n, u, DeliverNext(w, n.links[u]));
  }

  lemma SettleFits(w: World, n: Net, u: UserId)
    requires NetOk(w, n) && AllFit(n) && u in n.links && n.links[u].answer.Some?
    ensures AllFit(n.(links := n.links[u := SettleAnswer(w, n.links[u])]))
  {
    hide Conveyed, MembersOk, LinkOk, Fits, Apply;
    assert LinkFits(n, u, n.links[u]);
    TakenFits(w, n, u, n.links[u], n.links[u].answer.value);
    OneFits(n, u, SettleAnswer(w, n.links[u]));
  }

  lemma {:induction false} RunsFit(w: World, n: Net, moves: seq<Move>)
    requires NetOk(w, n) && AllFit(n) && CanRun(w, n, moves)
    ensures AllFit(RunNet(w, n, moves))
    decreases |moves|
  {
    hide NetOk, AllFit, Enabled, Next;
    if moves != [] {
      NextOk(w, n, moves[0]);
      NextFits(w, n, moves[0]);
      RunsFit(w, Next(w, n, moves[0]), moves[1..]);
    }
  }

  lemma StartFits(w: World, n: Net)
    requires Starts(w, n)
    ensures AllFit(n)
  {
    hide Honest, IsSelf;
    forall u | u in n.links ensures LinkFits(n, u, n.links[u]) {
      assert StartsAs(w, n, u);
    }
  }
}
