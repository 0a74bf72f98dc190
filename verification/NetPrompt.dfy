/**
 The guard under which every member hears every other: whoever enters knows that they are out
 of the room, no kick of theirs is still on its way, and none of their requests is refused.
 */
module NetPrompt {
  import opened Collections
  import opened KeyModel
  import opened KeyInvariants
  import opened KeyRuns
  import opened NetModel
  import opened NetSafety
  import opened NetArrival
  import opened NetRuns
  import opened NetRest
  import opened NetTracks
  import opened NetSecrets
  import opened NetMesh

  /** The server lets `u` in only when their client takes itself to be in no room, and acted on
      every kick; and it refuses no request of theirs. */
  predicate IsPrompt(n: Net, u: UserId, move: Move) {
    match move
    case Enter(v, _) => v == u && u in n.links ==> n.links[u].keys.room.None? && n.links[u].kicks == 0
    case Refuse(v) => v != u
    case _ => true
  }

  ghost predicate IsPromptRun(w: World, n: Net, moves: seq<Move>, u: UserId)
    requires CanRun(w, n, moves)
    decreases |moves|
  {
    moves != [] ==> IsPrompt(n, u, moves[0]) && IsPromptRun(w, Next(w, n, moves[0]), moves[1..], u)
  }

  /** A member's client is in the room, or about to be, with the tracks it has there, and can take
      the keys of the room's epoch. */
  ghost predicate IsHome(w: World, n: Net, u: UserId) {
    && u in n.links
    && n.links[u].refused == {}
    && (u in n.members ==> IsIn(w, n, u, n.links[u]))
  }

  ghost predicate IsIn(w: World, n: Net, u: UserId, l: Link)
    requires u in n.members
  {
    && l.kicks == 0 && !IsDeaf(w, n.epoch, l.keys)
    && (l.answer.None? ==> l.keys.room.Some?)
    && (l.keys.room.Some? ==> l.keys.myTracks == Some(n.members[u]))
  }

  // ---- What keeps a client home --------------------------------------------------------

  /** Nobody is deaf to an epoch to come. */
  lemma LaterIsHeard(w: World, n: Net, u: UserId)
    requires NetOk(w, n) && u in n.links
    ensures !IsDeaf(w, n.epoch + 1, n.links[u].keys)
  {
    hide Conveyed, Inv, StatesOk, PeersOk, Honest;
    assert LinkOk(w, n.epoch, n.members, u, n.links[u]);
  }

  /** The room moves to its next epoch, and `u` keeps its place in it. */
  lemma MovedHome(w: World, n: Net, m: Net, u: UserId)
    requires NetOk(w, n) && IsHome(w, n, u) && u in m.links && m.epoch == n.epoch + 1
    requires m.links[u].keys == n.links[u].keys && m.links[u].answer == n.links[u].answer && m.links[u].refused == n.links[u].refused
    requires u in m.members ==> u in n.members && m.members[u] == n.members[u] && m.links[u].kicks == n.links[u].kicks
    ensures IsHome(w, m, u)
  {
    hide NetOk, IsDeaf;
    LaterIsHeard(w, n, u);
  }

  lemma TookOut(w: World, n: Net, u: UserId, peers: seq<Peer>, v: UserId)
    requires u in n.links && v in n.links
    ensures var out := TakeOut(w, n, u, peers); v in out.links && out.links[v] == n.links[v].(inbox := out.links[v].inbox)
  {
    ToldTwice(n.links, n.members.Keys - {u}, RoomState(w.room, n.epoch + 1, peers), n.links.Keys, Shown(u, None));
  }

  lemma LetIn(w: World, n: Net, u: UserId, peers: seq<Peer>, v: UserId)
    requires u in n.links && v in n.links
    ensures var m := EnterRoomOf(w, n, u, peers);
      && v in m.links
      && m.links[v] == n.links[v].(inbox := m.links[v].inbox, answer := m.links[v].answer)
      && (v != u ==> m.links[v].answer == n.links[v].answer)
      && (v == u ==> m.links[v].answer.Some?)
  {
    ToldTwice(n.links, n.members.Keys, RoomState(w.room, n.epoch + 1, peers), n.links.Keys, Shown(u, Some(w.room)));
  }

  lemma EnterHome(w: World, n: Net, v: UserId, peers: seq<Peer>, u: UserId)
    requires NetOk(w, n) && IsHome(w, n, u) && Enabled(w, n, Enter(v, peers)) && IsPrompt(n, u, Enter(v, peers))
    ensures IsHome(w, EnterRoomOf(w, n, v, peers), u)
  {
    hide NetOk, IsDeaf, Describes, Tell;
    LetIn(w, n, v, peers, u);
    LaterIsHeard(w, n, u);
  }

  lemma EventHome(w: World, n: Net, u: UserId)
    requires NetOk(w, n) && IsHome(w, n, u) && n.links[u].inbox != []
    ensures IsHome(w, n.(links := n.links[u := DeliverNext(w, n.links[u])]), u)
  {
    hide Conveyed, Honest, KeysOk, ListOk, IsDeaf, Apply;
    var l := n.links[u];
    assert LinkOk(w, n.epoch, n.members, u, l);
    assert MessageOk(w, n.epoch, n.members, u, l.inbox[0]);
    EventStays(w, n.epoch, n.members, u, l.keys, l.inbox[0], n.epoch);
  }

  /** An answer gives a member the tracks it has, or was overtaken by a state it took them in. */
  lemma AnswerHome(w: World, n: Net, u: UserId)
    requires NetOk(w, n) && AllInformed(w, n) && IsHome(w, n, u) && n.links[u].answer.Some?
    ensures IsHome(w, n.(links := n.links[u := SettleAnswer(w, n.links[u])]), u)
  {
    hide Conveyed, Honest, KeysOk, ListOk, IsDeaf, Apply, Aware, PresencesOk, HasNews, MembersOk;
    var l := n.links[u];
    assert LinkOk(w, n.epoch, n.members, u, l) && Informed(w, n.epoch, n.members, u, l);
    RoomIs(w, n.epoch, n.members, u, l.keys);
    AnswerPlaces(w, l.keys, l.answer.value, n.epoch);
  }

  lemma NextHome(w: World, n: Net, move: Move, u: UserId)
    requires NetOk(w, n) && AllInformed(w, n) && IsHome(w, n, u) && Enabled(w, n, move) && IsPrompt(n, u, move)
    ensures IsHome(w, Next(w, n, move), u)
  {
    hide NetOk, AllInformed, IsDeaf, Describes, TakeOut, EnterRoomOf, DeliverNext, SettleAnswer, ActOnKick, Restart;
    match move
    case Enter(v, peers) => EnterHome(w, n, v, peers, u);
    case Leave(v, peers) =>
      TookOut(w, n, v, peers, u);
      TookOut(w, n, v, peers, v);
      OutIs(w, n, v, peers);
      if v != u {
        MovedHome(w, n, LeaveRoomOf(w, n, v, peers), u);
      }
    case Kick(v, peers, told) =>
      TookOut(w, n, v, peers, u);
      OutIs(w, n, v, peers);
      if v != u {
        MovedHome(w, n, KickedOut(w, n, v, peers, told), u);
      }
    case Ask(v, peers) =>
    case PutOut(v) =>
      KeepsRefused(w, n.links[v]);
    case Refuse(v) =>
    case Refresh(peers) =>
    case Announce(v) =>
    case Reconnect(v, peers) =>
      if v in n.members {
        TookOut(w, n, v, peers, u);
        OutIs(w, n, v, peers);
        if v != u {
          MovedHome(w, n, Restarted(w, n, v, peers), u);
        }
      }
      RestartsClean(w, n.links[v].keys, Restarted(w, n, v, peers).members);
    case Accept(v) =>
    case Deliver(v) =>
      if v == u {
        EventHome(w, n, u);
      }
    case Settle(v) =>
      if v == u {
        AnswerHome(w, n, u);
      }
  }

  lemma OutIs(w: World, n: Net, u: UserId, peers: seq<Peer>)
    ensures var out := TakeOut(w, n, u, peers); out.members == n.members - {u} && out.epoch == n.epoch + 1
  {
  }

  lemma RestartsClean(w: World, k: Keys, members: Members)
    ensures Restart(w, k, members).refused == {}
  {
  }

  lemma KeepsRefused(w: World, l: Link)
    requires l.kicks > 0
    ensures ActOnKick(w, l).refused == l.refused
  {
  }

  lemma {:induction false} RunsKeepHome(w: World, n: Net, moves: seq<Move>, u: UserId)
    requires NetOk(w, n) && AllInformed(w, n) && IsHome(w, n, u) && CanRun(w, n, moves) && IsPromptRun(w, n, moves, u)
    ensures IsHome(w, RunNet(w, n, moves), u)
    decreases |moves|
  {
    hide NetOk, AllInformed, IsHome, IsPrompt, Enabled, Next;
    if moves != [] {
      NextOk(w, n, moves[0]);
      NextInforms(w, n, moves[0]);
      NextHome(w, n, moves[0], u);
      RunsKeepHome(w, Next(w, n, moves[0]), moves[1..], u);
    }
  }

  /** The converse, step by step: a kick that a client acts on in a room it was let into again
      loses it, as does one that the room's state of now was taken in before. */
  lemma LateKickLoses(w: World, n: Net, u: UserId)
    requires u in n.links && u in n.members && n.links[u].kicks > 0 && n.links[u].answer.None? && n.links[u].keys.room.Some?
    requires NetOk(w, n)
    ensures var m := n.(links := n.links[u := ActOnKick(w, n.links[u])]);
      && !IsHome(w, m, u) && !Listens(m, u) && !Speaks(m, u)
      && (IsDeaf(w, n.epoch, m.links[u].keys) <==> IsDeaf(w, n.epoch, n.links[u].keys) || n.links[u].keys.epoch == n.epoch)
  {
    hide Conveyed, Honest, KeysOk, ListOk, IsDeaf, Apply;
    var l := n.links[u];
    assert LinkOk(w, n.epoch, n.members, u, l);
    RoomIs(w, n.epoch, n.members, u, l.keys);
    LobbyOk(w, n.epoch, n.members, u, l.keys);
    KickDeafens(w, n.epoch, n.members, u, l.keys);
  }

  // ---- So everyone hears everyone ------------------------------------------------------

  lemma StartsHome(w: World, n: Net, u: UserId)
    requires Starts(w, n) && u in n.links
    ensures IsHome(w, n, u)
  {
    hide Honest, IsSelf;
    assert StartsAs(w, n, u);
  }

  lemma HomeAtRest(w: World, n: Net, u: UserId)
    requires AtRest(n) && IsHome(w, n, u) && u in n.members
    ensures Speaks(n, u) && Listens(n, u)
  {
  }

  lemma RunEndsHome(w: World, start: Net, moves: seq<Move>, u: UserId)
    requires Starts(w, start) && CanRun(w, start, moves) && u in start.links && IsPromptRun(w, start, moves, u)
    ensures IsHome(w, RunNet(w, start, moves), u)
  {
    hide NetOk, AllInformed, Starts, CanRun, RunNet, IsHome, IsPromptRun;
    StartOk(w, start);
    StartInforms(w, start);
    StartsHome(w, start, u);
    RunsKeepHome(w, start, moves, u);
  }

  /** The point of it all: however people entered, left, were kicked or lost their connections and
      however messages overtook each other, once everything sent has been delivered, two members
      who were prompt receive every track of each other with the very key it is sent with. */
  lemma EveryoneHearsEveryone(w: World, start: Net, moves: seq<Move>, a: UserId, b: UserId, id: MediaId)
    requires Starts(w, start) && CanRun(w, start, moves) && AtRest(RunNet(w, start, moves))
    requires a in start.links && b in start.links && IsPromptRun(w, start, moves, a) && IsPromptRun(w, start, moves, b)
    requires var n := RunNet(w, start, moves);
      a in n.members && b in n.members && a != b && id in TrackIds(n.members[a])
    ensures Hears(RunNet(w, start, moves), b, a, id)
  {
    hide AtRest, Starts, CanRun, RunNet, IsHome, IsPromptRun, Speaks, Listens, Hears;
    var n := RunNet(w, start, moves);
    RunEndsHome(w, start, moves, a);
    RunEndsHome(w, start, moves, b);
    HomeAtRest(w, n, a);
    HomeAtRest(w, n, b);
    HeardExactly(w, start, moves, a, b, id);
  }

  /** And at every point of their runs, what the one wrapped to the other is on its way there, or
      has arrived. */
  lemma NoPromptKeyIsLost(w: World, start: Net, moves: seq<Move>, a: UserId, b: UserId)
    requires Starts(w, start) && CanRun(w, start, moves) && a in w.accounts && b in w.accounts
    requires a in start.links && b in start.links && IsPromptRun(w, start, moves, a) && IsPromptRun(w, start, moves, b)
    requires var n := RunNet(w, start, moves);
      a in n.links && b in n.links && IsCurrent(w, n.epoch, n.links[a].keys) && Gave(w, n.links[a].keys, b)
    ensures var n := RunNet(w, start, moves);
            var wrap := WrapOf(w, a, b, n.epoch, n.links[a].keys.mySecret.value);
            var coming := OnItsWay(a, n.links[a], b, n.links[b], n.epoch);
            if coming.Some? then coming.value == wrap else Reached(n.links[b].keys, a, n.epoch, wrap)
  {
    hide NetOk, Starts, CanRun, RunNet, IsPromptRun, OnItsWay, Reached, IsDeaf, Gave;
    var n := RunNet(w, start, moves);
    RunEndsHome(w, start, moves, a);
    RunEndsHome(w, start, moves, b);
    StartOk(w, start);
    RunsKeepNet(w, start, moves);
    GivenIn(w, n, a, b);
    NoKeyIsLost(w, start, moves, a, b);
  }

  lemma GivenIn(w: World, n: Net, a: UserId, b: UserId)
    requires NetOk(w, n) && a in n.links && b in w.accounts && IsCurrent(w, n.epoch, n.links[a].keys) && Gave(w, n.links[a].keys, b)
    ensures b in n.members
  {
    hide Conveyed, Honest, KeysOk;
    GivenToMembers(w, n.epoch, n.members, a, n.links[a], b);
  }
}
