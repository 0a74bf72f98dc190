/**
 A run in which a member isn't heard: they were let into the room again while a kick was still
 on its way to them, acted on it then, and joined once more, too late for that epoch.
 */
module NetLate {
  import opened Collections
  import opened KeyModel
  import opened KeyRuns
  import opened NetModel
  import opened NetSafety
  import opened NetArrival
  import opened NetRuns
  import opened NetRest
  import opened NetTracks
  import opened NetSecrets
  import opened NetMesh
  import opened NetPrompt
  import opened NetDrain

  // ---- Few epochs can't fill the early keys --------------------------------------------

  /** Epochs after `base` up to `at`, by whom a sender key of theirs can be. */
  function Grid(users: set<UserId>, base: Epoch, at: Epoch): set<(UserId, Epoch)>
    decreases at - base
  {
    if at <= base then {} else Grid(users, base, at - 1) + set u | u in users :: (u, at)
  }

  lemma {:induction false} GridHas(users: set<UserId>, base: Epoch, at: Epoch, u: UserId, epoch: Epoch)
    requires u in users && base < epoch <= at
    ensures (u, epoch) in Grid(users, base, at)
    decreases at - base
  {
    if epoch < at {
      GridHas(users, base, at - 1, u, epoch);
    }
  }

  lemma {:induction false} RowSize(users: set<UserId>, at: Epoch)
    ensures |set u | u in users :: (u, at)| == |users|
    decreases |users|
  {
    if users == {} {
      assert (set u | u in users :: (u, at)) == {};
    } else {
      var v: int := Pick(users);
      RowSize(users - {v}, at);
      var row, rest := set u | u in users :: (u, at), set u | u in users - {v} :: (u, at);
      SameSet(row, rest + {(v, at)});
    }
  }

  lemma {:induction false} GridSize(users: set<UserId>, base: Epoch, at: Epoch)
    requires base <= at
    ensures |Grid(users, base, at)| <= |users| * (at - base)
    decreases at - base
  {
    if base < at {
      GridSize(users, base, at - 1);
      RowSize(users, at);
      assert |users| * (at - base) == |users| * (at - 1 - base) + |users|;
    }
  }

  ghost predicate KeyFits(w: World, base: Epoch, at: Epoch, sender: UserId, epoch: Epoch) {
    sender in w.accounts && base < epoch <= at
  }

  ghost predicate LinkKeysFit(w: World, base: Epoch, at: Epoch, l: Link) {
    && (forall x :: x in l.keys.early ==> KeyFits(w, base, at, x.0, x.1))
    && (forall i :: 0 <= i < |l.inbox| && l.inbox[i].KeyFrom? ==> KeyFits(w, base, at, l.inbox[i].sender, l.inbox[i].epoch))
  }

  /** Every sender key on its way or held early is of an epoch after `base`. */
  ghost predicate KeysFit(w: World, base: Epoch, n: Net) {
    && base <= n.epoch && (n.members.Keys != {} ==> base < n.epoch)
    && forall u :: u in n.links ==> LinkKeysFit(w, base, n.epoch, n.links[u])
  }

  lemma FewKeysDontClog(w: World, base: Epoch, n: Net)
    requires KeysFit(w, base, n) && |w.accounts| * (n.epoch - base) < MAX_EARLY
    ensures !IsClogged(n)
  {
    forall u | u in n.links ensures |n.links[u].keys.early| < MAX_EARLY {
      var early, grid := n.links[u].keys.early, Grid(w.accounts.Keys, base, n.epoch);
      assert LinkKeysFit(w, base, n.epoch, n.links[u]);
      forall x ensures x in early.Keys ==> x in grid {
        if x in early {
          assert KeyFits(w, base, n.epoch, x.0, x.1);
          GridHas(w.accounts.Keys, base, n.epoch, x.0, x.1);
        }
      }
      Within(early.Keys, grid);
      Fewer(early.Keys, grid);
      GridSize(w.accounts.Keys, base, n.epoch);
      assert |early| == |early.Keys| && |w.accounts| == |w.accounts.Keys|;
    }
  }

  /** A step holds no key early but those held before, and the one a sender key brings. */
  lemma EarlyStays(k: Keys, step: Step, x: SenderAt)
    requires step.op.RoomState? || step.op.Shown? || step.op.Placement? || step.op.KeyFrom?
    requires x in Apply(k, step).0.early
    ensures x in k.early || (step.op.KeyFrom? && x == (step.op.sender, step.op.epoch))
  {
    hide PeersChanged, SenderKey, Place, SetPresence;
    match step.op
    case RoomState(room, epoch, peers) => FewerEarly(k, room, epoch, peers, step.now, step.unix);
    case Shown(user, where) =>
      var t := SetPresence(k, user, where).0;
      PresenceTouches(k, user, where);
      if t.room.Some? {
        FewerEarly(t, t.room.value, t.epoch, t.roomPeers, step.now, step.unix);
      }
    case Placement(to, epoch, tracks, peers) =>
      var placed := Place(k, to, tracks);
      PlacedEarly(k, to, tracks);
      if to.Some? {
        FewerEarly(placed, to.value, epoch, peers, step.now, step.unix);
        var entered := PeersChanged(placed, to.value, epoch, peers, step.now, step.unix).0;
        if entered.stashed.Some? {
          FewerEarly(entered.(stashed := None), to.value, entered.stashed.value.epoch, entered.stashed.value.peers, step.now, step.unix);
        }
      }
    case KeyFrom(sender, epoch, blob) => SenderKeyIs(k, sender, epoch, blob, step.now);
  }

  lemma PlacedEarly(k: Keys, to: Option<RoomId>, tracks: Option<Tracks>)
    ensures Place(k, to, tracks).early == k.early
  {
  }

  lemma TakenFits(w: World, base: Epoch, at: Epoch, l: Link, op: Op, m: Link)
    requires LinkKeysFit(w, base, at, l) && (op.RoomState? || op.Shown? || op.Placement? || op.KeyFrom?)
    requires m.keys == Take(w, l, op).keys && (m.inbox == l.inbox || (l.inbox != [] && m.inbox == l.inbox[1..]))
    requires op.KeyFrom? ==> op in l.inbox
    ensures LinkKeysFit(w, base, at, m)
  {
    hide Apply, KeyFits;
    forall x | x in m.keys.early ensures KeyFits(w, base, at, x.0, x.1) {
      EarlyStays(l.keys, Step(op, w.now, w.unix), x);
    }
    forall i | 0 <= i < |m.inbox| && m.inbox[i].KeyFrom? ensures KeyFits(w, base, at, m.inbox[i].sender, m.inbox[i].epoch) {
      assert m.inbox[i] in l.inbox;
    }
  }

  /** A link that the room moves on around, or that is told something. */
  lemma ToldFits(w: World, base: Epoch, at: Epoch, l: Link, later: Epoch, m: Link, told: seq<Op>)
    requires LinkKeysFit(w, base, at, l) && at <= later && m.keys == l.keys && m.inbox == l.inbox + told
    requires forall i :: 0 <= i < |told| && told[i].KeyFrom? ==> KeyFits(w, base, later, told[i].sender, told[i].epoch)
    ensures LinkKeysFit(w, base, later, m)
  {
  }

  lemma NextKeysFit(w: World, base: Epoch, n: Net, move: Move)
    requires NetOk(w, n) && KeysFit(w, base, n) && Enabled(w, n, move)
    ensures KeysFit(w, base, Next(w, n, move))
  {
    hide NetOk, Enabled, Next, LinkKeysFit;
    forall u | u in Next(w, n, move).links ensures LinkKeysFit(w, base, Next(w, n, move).epoch, Next(w, n, move).links[u]) {
      LinkStillFits(w, base, n, move, u);
    }
    NextMoves(w, base, n, move);
  }

  lemma LinkStillFits(w: World, base: Epoch, n: Net, move: Move, u: UserId)
    requires NetOk(w, n) && KeysFit(w, base, n) && Enabled(w, n, move) && u in Next(w, n, move).links
    ensures LinkKeysFit(w, base, Next(w, n, move).epoch, Next(w, n, move).links[u])
  {
    hide LinkOk, Conveyed, Honest, Describes, LinkKeysFit, KeyFits, Take, Restart;
    var m := Next(w, n, move);
    match move
    case Enter(v, peers) =>
      var state := if u in n.members then [RoomState(w.room, n.epoch + 1, peers)] else [];
      ToldFits(w, base, n.epoch, n.links[u], m.epoch, m.links[u], state + [Shown(v, Some(w.room))]);
    case Leave(v, peers) => OutKeysFit(w, base, n, v, peers, u, m.links[u]);
    case Ask(v, peers) => ToldFits(w, base, n.epoch, n.links[u], m.epoch, m.links[u], []);
    case Kick(v, peers, told) => OutKeysFit(w, base, n, v, peers, u, m.links[u]);
    case PutOut(v) =>
      if u == v {
        PutOutKeysFit(w, base, n, u);
      }
    case Refuse(v) => ToldFits(w, base, n.epoch, n.links[u], m.epoch, m.links[u], []);
    case Refresh(peers) =>
      ToldFits(w, base, n.epoch, n.links[u], m.epoch, m.links[u],
               if u in n.members then [RoomState(w.room, n.epoch, peers)] else []);
    case Announce(v) => ToldFits(w, base, n.epoch, n.links[u], m.epoch, m.links[u], [Shown(v, Some(w.room))]);
    case Reconnect(v, peers) =>
      if u == v {
        RestartKeysFit(w, base, m.epoch, n.links[u].keys, m.members);
      } else if v in n.members {
        OutKeysFit(w, base, n, v, peers, u, m.links[u]);
      }
    case Accept(v) => AcceptKeysFit(w, base, n, v, u);
    case Deliver(v) =>
      if u == v {
        EventIs(w, n, u);
        DeliverKeysFit(w, base, n, u);
      }
    case Settle(v) =>
      if u == v {
        AnswerIs(w, n, u);
        SettleKeysFit(w, base, n, u);
      }
  }

  lemma NextMoves(w: World, base: Epoch, n: Net, move: Move)
    requires KeysFit(w, base, n) && Enabled(w, n, move)
    ensures var m := Next(w, n, move); base <= m.epoch && (m.members.Keys != {} ==> base < m.epoch)
  {
    hide LinkKeysFit, Describes, Tell, Take, Restart, HandOut;
  }

  lemma OutKeysFit(w: World, base: Epoch, n: Net, u: UserId, peers: seq<Peer>, v: UserId, m: Link)
    requires KeysFit(w, base, n) && v in n.links
    requires var out := TakeOut(w, n, u, peers).links[v]; m.keys == out.keys && m.inbox == out.inbox
    ensures LinkKeysFit(w, base, n.epoch + 1, m)
  {
    hide LinkKeysFit, KeyFits;
    var state := if v in n.members.Keys - {u} then [RoomState(w.room, n.epoch + 1, peers)] else [];
    ToldFits(w, base, n.epoch, n.links[v], n.epoch + 1, m, state + [Shown(u, None)]);
  }

  lemma RestartKeysFit(w: World, base: Epoch, at: Epoch, k: Keys, members: Members)
    ensures LinkKeysFit(w, base, at, Restart(w, k, members))
  {
  }

  lemma PutOutKeysFit(w: World, base: Epoch, n: Net, u: UserId)
    requires KeysFit(w, base, n) && u in n.links && n.links[u].kicks > 0
    ensures LinkKeysFit(w, base, n.epoch, ActOnKick(w, n.links[u]))
  {
    hide LinkKeysFit, Apply;
    var l := n.links[u];
    if l.keys.room == Some(w.room) {
      TakenFits(w, base, n.epoch, l, TO_LOBBY, ActOnKick(w, l));
    } else {
      assert l.inbox + [] == l.inbox;
      ToldFits(w, base, n.epoch, l, n.epoch, ActOnKick(w, l), []);
    }
  }

  lemma DeliverKeysFit(w: World, base: Epoch, n: Net, u: UserId)
    requires KeysFit(w, base, n) && u in n.links && n.links[u].inbox != []
    requires var op := n.links[u].inbox[0]; op.RoomState? || op.Shown? || op.KeyFrom?
    ensures LinkKeysFit(w, base, n.epoch, DeliverNext(w, n.links[u]))
  {
    hide LinkKeysFit, Apply;
    TakenFits(w, base, n.epoch, n.links[u], n.links[u].inbox[0], DeliverNext(w, n.links[u]));
  }

  lemma SettleKeysFit(w: World, base: Epoch, n: Net, u: UserId)
    requires KeysFit(w, base, n) && u in n.links && n.links[u].answer.Some? && n.links[u].answer.value.Placement?
    ensures LinkKeysFit(w, base, n.epoch, SettleAnswer(w, n.links[u]))
  {
    hide LinkKeysFit, Apply;
    TakenFits(w, base, n.epoch, n.links[u], n.links[u].answer.value, SettleAnswer(w, n.links[u]));
  }

  lemma AcceptKeysFit(w: World, base: Epoch, n: Net, v: UserId, u: UserId)
    requires NetOk(w, n) && KeysFit(w, base, n) && v in n.links && n.links[v].outbox != [] && u in n.links
    ensures LinkKeysFit(w, base, n.epoch, AcceptNext(n, v).links[u])
  {
    hide LinkKeysFit, LinkOk, Conveyed, Honest;
    var p, m := n.links[v].outbox[0], AcceptNext(n, v).links[u];
    if Accepted(n, v, p) && u in p.wrapped {
      ToldFits(w, base, n.epoch, n.links[u], n.epoch, m, [KeyFrom(v, p.epoch, p.wrapped[u])]);
    } else {
      assert n.links[u].inbox + [] == n.links[u].inbox;
      ToldFits(w, base, n.epoch, n.links[u], n.epoch, m, []);
    }
  }

  lemma {:induction false} RunsKeepKeysFit(w: World, base: Epoch, n: Net, moves: seq<Move>)
    requires NetOk(w, n) && KeysFit(w, base, n) && CanRun(w, n, moves)
    ensures KeysFit(w, base, RunNet(w, n, moves))
    decreases |moves|
  {
    hide NetOk, KeysFit, Enabled, Next;
    if moves != [] {
      NextOk(w, n, moves[0]);
      NextKeysFit(w, base, n, moves[0]);
      RunsKeepKeysFit(w, base, Next(w, n, moves[0]), moves[1..]);
    }
  }

  lemma StartKeysFit(w: World, n: Net)
    requires Starts(w, n)
    ensures KeysFit(w, n.epoch, n)
  {
    hide Honest, IsSelf, KeyFits;
    forall u | u in n.links ensures LinkKeysFit(w, n.epoch, n.epoch, n.links[u]) {
      assert StartsAs(w, n, u);
    }
  }

  // ---- The list of any members ---------------------------------------------------------

  lemma {:induction false} SomeList(w: World, members: Members) returns (peers: seq<Peer>)
    requires members.Keys <= w.accounts.Keys
    ensures Describes(w, peers, members)
    decreases |members|
  {
    if members == map[] {
      peers := [];
      SameSet(Users(peers), members.Keys);
    } else {
      var u: int := Pick(members.Keys);
      var rest := members - {u};
      Smaller(members, u);
      SameSet(rest.Keys, members.Keys - {u});
      var others := SomeList(w, rest);
      var p := PeerOf(w, u, members[u], 0);
      peers := [p] + others;
      OneMoreListed(w, others, rest, members, p);
    }
  }

  lemma OneMoreListed(w: World, others: seq<Peer>, rest: Members, members: Members, p: Peer)
    requires Describes(w, others, rest) && p.user in members && rest == members - {p.user} && |members| == |rest| + 1
    requires p.user in w.accounts && p == PeerOf(w, p.user, members[p.user], p.share)
    ensures Describes(w, [p] + others, members)
  {
    hide UserList, Distinct;
    var peers := [p] + others;
    forall q | q in peers ensures q.user in members && q.user in w.accounts && q == PeerOf(w, q.user, members[q.user], q.share) {
      assert q == p || q in others;
    }
    forall u ensures u in Users(peers) <==> u in members.Keys {
      if u in Users(others) {
        var q :| q in others && q.user == u;
        assert q in peers;
      }
      if u == p.user {
        assert p in peers;
      }
    }
    SameSet(Users(peers), members.Keys);
    StillDistinct(p, others);
  }

  lemma StillDistinct(p: Peer, others: seq<Peer>)
    requires Distinct(UserList(others)) && p.user !in Users(others)
    ensures Distinct(UserList([p] + others))
  {
    var peers := [p] + others;
    forall i, j | 0 <= i < j < |peers| ensures UserList(peers)[i] != UserList(peers)[j] {
      if i == 0 {
        assert others[j - 1] in others;
      } else {
        assert UserList(others)[i - 1] != UserList(others)[j - 1];
      }
    }
  }

  // ---- The run -------------------------------------------------------------------------

  /** A run so far from `start`, which refused nothing and dropped no connection. */
  ghost predicate Reaches(w: World, start: Net, moves: seq<Move>, n: Net) {
    && CanRun(w, start, moves) && RunNet(w, start, moves) == n
    && forall i :: 0 <= i < |moves| ==> !moves[i].Refuse? && !moves[i].Reconnect?
  }

  lemma Onwards(w: World, start: Net, moves: seq<Move>, n: Net, move: Move)
    requires Reaches(w, start, moves, n) && Enabled(w, n, move) && !move.Refuse? && !move.Reconnect?
    ensures Reaches(w, start, moves + [move], Next(w, n, move))
  {
    hide CanRun, RunNet, Enabled, Next;
    OneMove(w, n, move);
    RunsJoin(w, start, moves, [move]);
  }

  lemma OneMove(w: World, n: Net, move: Move)
    requires Enabled(w, n, move)
    ensures CanRun(w, n, [move]) && RunNet(w, n, [move]) == Next(w, n, move)
  {
    hide Next;
    assert [move][1..] == [];
    assert RunNet(w, Next(w, n, move), []) == Next(w, n, move);
  }

  lemma ReachedIsSound(w: World, start: Net, moves: seq<Move>, n: Net)
    requires Starts(w, start) && Reaches(w, start, moves, n)
    ensures Sound(w, n) && n.links.Keys == w.accounts.Keys && n.members.Keys <= w.accounts.Keys
  {
    hide Starts, CanRun, RunNet, AllInformed, AllFit, AllSent, LinkOk, Conveyed, Honest;
    RunsAreSound(w, start, moves);
  }

  /** The two people of the story, as far as it has got: who is in, with how many kicks to come
      for `b`, and with no answer still to come but to `b`. */
  ghost predicate Scene(w: World, n: Net, epoch: Epoch, a: UserId, b: UserId, members: set<UserId>, kicks: nat) {
    && a in n.links && b in n.links && n.epoch == epoch && n.members.Keys == members && members <= {a, b}
    && n.links[a].kicks == 0 && n.links[b].kicks == kicks
  }

  ghost predicate NoAnswer(n: Net, u: UserId) {
    u in n.links && n.links[u].answer.None?
  }

  lemma EnterScene(w: World, start: Net, moves: seq<Move>, n: Net, a: UserId, b: UserId, members: set<UserId>, kicks: nat, u: UserId)
    returns (peers: seq<Peer>, m: Net)
    requires Starts(w, start) && Reaches(w, start, moves, n) && Scene(w, n, n.epoch, a, b, members, kicks) && u !in members && (u == a || u == b)
    requires NoAnswer(n, u)
    ensures Reaches(w, start, moves + [Enter(u, peers)], m) && Scene(w, m, n.epoch + 1, a, b, members + {u}, kicks)
    ensures m.links[u].keys == n.links[u].keys && m.links[u].answer.Some?
    ensures var op := m.links[u].answer.value; op.Placement? && op.to == Some(w.room) && op.epoch == m.epoch
    ensures forall v :: v != u && NoAnswer(n, v) ==> NoAnswer(m, v)
    ensures Enabled(w, n, Enter(u, peers)) && m == Next(w, n, Enter(u, peers))
  {
    hide Starts, CanRun, RunNet, Sound, Tell, Describes;
    ReachedIsSound(w, start, moves, n);
    SameSet(With(w, n, u).Keys, n.members.Keys + {u});
    peers := SomeList(w, With(w, n, u));
    FewMembers(n, a, b);
    m := EnterRoomOf(w, n, u, peers);
    Onwards(w, start, moves, n, Enter(u, peers));
    LetIn(w, n, u, peers, a);
    LetIn(w, n, u, peers, b);
    LetIn(w, n, u, peers, u);
    forall v | v != u && NoAnswer(n, v) ensures NoAnswer(m, v) {
      LetIn(w, n, u, peers, v);
    }
  }

  lemma FewMembers(n: Net, a: UserId, b: UserId)
    requires n.members.Keys <= {a, b}
    ensures |n.members| < MAX_ROOM_MEMBERS
  {
    Fewer(n.members.Keys, {a, b});
    assert |n.members| == |n.members.Keys|;
  }

  lemma SettleScene(w: World, start: Net, moves: seq<Move>, n: Net, a: UserId, b: UserId, members: set<UserId>, kicks: nat, u: UserId)
    returns (m: Net)
    requires Starts(w, start) && Reaches(w, start, moves, n) && Scene(w, n, n.epoch, a, b, members, kicks) && (u == a || u == b)
    requires n.links[u].answer.Some?
    requires var op := n.links[u].answer.value; op.Placement? && op.to == Some(w.room)
    ensures Reaches(w, start, moves + [Settle(u)], m) && Scene(w, m, n.epoch, a, b, members, kicks) && NoAnswer(m, u)
    ensures m.links[u].keys.room == Some(w.room) && m.members == n.members
    ensures IsDeaf(w, n.epoch, m.links[u].keys) <==> IsDeaf(w, n.epoch, n.links[u].keys)
    ensures u in members && n.links[u].answer.value.epoch == n.epoch ==> m.links[u].keys.epoch == n.epoch
    ensures forall v :: v != u && NoAnswer(n, v) ==> NoAnswer(m, v)
    ensures m == Next(w, n, Settle(u))
  {
    hide Starts, CanRun, RunNet, Apply, NetOk, AllFit, AllSent, IsDeaf, Informed;
    ReachedIsSound(w, start, moves, n);
    m := n.(links := n.links[u := SettleAnswer(w, n.links[u])]);
    Onwards(w, start, moves, n, Settle(u));
    InRoomIs(w, n, u);
    AnswerPlaces(w, n.links[u].keys, n.links[u].answer.value, n.epoch);
    if u in members && n.links[u].answer.value.epoch == n.epoch {
      SettledNow(w, n, u);
    }
  }

  /** An answer of the room's epoch brings a member's client to that epoch. */
  lemma SettledNow(w: World, n: Net, u: UserId)
    requires NetOk(w, n) && AllInformed(w, n) && u in n.members && u in n.links && n.links[u].answer.Some?
    requires var op := n.links[u].answer.value; op.Placement? && op.to == Some(w.room) && op.epoch == n.epoch
    ensures SettleAnswer(w, n.links[u]).keys.epoch == n.epoch
  {
    hide Conveyed, Honest, KeysOk, ListOk, Apply, Applied, HasNews, PresencesOk, MembersOk;
    var l := n.links[u];
    assert LinkOk(w, n.epoch, n.members, u, l) && Informed(w, n.epoch, n.members, u, l);
    AnswerAware(w, n.epoch, n.members, u, l.keys, l.answer.value);
    AnswerPlaces(w, l.keys, l.answer.value, n.epoch);
  }

  lemma InRoomIs(w: World, n: Net, u: UserId)
    requires NetOk(w, n) && u in n.links
    ensures n.links[u].keys.room.Some? ==> n.links[u].keys.room.value == w.room
  {
    hide Conveyed, Honest, KeysOk;
    assert LinkOk(w, n.epoch, n.members, u, n.links[u]);
    RoomIs(w, n.epoch, n.members, u, n.links[u].keys);
  }

  lemma KickScene(w: World, start: Net, moves: seq<Move>, n: Net, a: UserId, b: UserId)
    returns (peers: seq<Peer>, m: Net)
    requires Starts(w, start) && Reaches(w, start, moves, n) && Scene(w, n, n.epoch, a, b, {a, b}, 0) && a != b
    ensures Reaches(w, start, moves + [Kick(b, peers, true)], m) && Scene(w, m, n.epoch + 1, a, b, {a}, 1)
    ensures m.links[b].keys == n.links[b].keys
    ensures forall v :: NoAnswer(n, v) ==> NoAnswer(m, v)
    ensures Enabled(w, n, Kick(b, peers, true)) && m == Next(w, n, Kick(b, peers, true))
  {
    hide Starts, CanRun, RunNet, Sound, Tell, Describes;
    ReachedIsSound(w, start, moves, n);
    SameSet((n.members - {b}).Keys, {a});
    peers := SomeList(w, n.members - {b});
    m := KickedOut(w, n, b, peers, true);
    Onwards(w, start, moves, n, Kick(b, peers, true));
    TookOut(w, n, b, peers, a);
    TookOut(w, n, b, peers, b);
    forall v | NoAnswer(n, v) ensures NoAnswer(m, v) {
      TookOut(w, n, b, peers, v);
    }
  }

  /** The kick is acted on, in the room and at its epoch. */
  lemma PutOutScene(w: World, start: Net, moves: seq<Move>, n: Net, a: UserId, b: UserId) returns (m: Net)
    requires Starts(w, start) && Reaches(w, start, moves, n) && Scene(w, n, n.epoch, a, b, {a, b}, 1) && a != b
    requires NoAnswer(n, a) && NoAnswer(n, b) && n.links[b].keys.room == Some(w.room) && n.links[b].keys.epoch == n.epoch
    ensures Reaches(w, start, moves + [PutOut(b)], m) && Scene(w, m, n.epoch, a, b, {a, b}, 0) && NoAnswer(m, a) && NoAnswer(m, b)
    ensures IsDeaf(w, n.epoch, m.links[b].keys) && m.members == n.members && m == Next(w, n, PutOut(b))
  {
    hide Starts, CanRun, RunNet, Apply, NetOk, AllInformed, AllFit, AllSent, IsDeaf;
    ReachedIsSound(w, start, moves, n);
    m := n.(links := n.links[b := ActOnKick(w, n.links[b])]);
    Onwards(w, start, moves, n, PutOut(b));
    LateKickLoses(w, n, b);
  }

  /** Asked again, the server answers where they are. */
  lemma AskScene(w: World, start: Net, moves: seq<Move>, n: Net, a: UserId, b: UserId) returns (peers: seq<Peer>, m: Net)
    requires Starts(w, start) && Reaches(w, start, moves, n) && Scene(w, n, n.epoch, a, b, {a, b}, 0)
    requires a != b && NoAnswer(n, a) && NoAnswer(n, b)
    ensures Reaches(w, start, moves + [Ask(b, peers)], m) && Scene(w, m, n.epoch, a, b, {a, b}, 0) && NoAnswer(m, a)
    ensures m.links[b].keys == n.links[b].keys && m.members == n.members && m.links[b].answer.Some?
    ensures var op := m.links[b].answer.value; op.Placement? && op.to == Some(w.room) && op.epoch == m.epoch
    ensures Enabled(w, n, Ask(b, peers)) && m == Next(w, n, Ask(b, peers))
  {
    hide Starts, CanRun, RunNet, Sound, Describes;
    ReachedIsSound(w, start, moves, n);
    peers := SomeList(w, n.members);
    m := n.(links := n.links[b := n.links[b].(answer := Some(AnswerAgain(w, n, b, peers)))]);
    Onwards(w, start, moves, n, Ask(b, peers));
  }

  // ---- Until it comes to rest ----------------------------------------------------------

  /** `b` is in the room, in the server's eyes and its own, and deaf to its epoch. */
  ghost predicate IsLost(w: World, n: Net, epoch: Epoch, members: Members, b: UserId) {
    && n.epoch == epoch && n.members == members && b in n.links && n.links[b].kicks == 0 && NoAnswer(n, b)
    && n.links[b].keys.room.Some? && IsDeaf(w, epoch, n.links[b].keys)
  }

  lemma DeliveryLeavesLost(w: World, n: Net, move: Move, epoch: Epoch, members: Members, b: UserId)
    requires NetOk(w, n) && IsLost(w, n, epoch, members, b) && IsDelivery(move) && Enabled(w, n, move)
    ensures IsLost(w, Next(w, n, move), epoch, members, b)
  {
    hide Conveyed, Honest, KeysOk, ListOk, IsDeaf, Apply, HandOut;
    match move
    case Accept(u) => AcceptKeepsKeys(n, u, b);
    case Deliver(u) =>
      if u == b {
        assert LinkOk(w, n.epoch, n.members, b, n.links[b]);
        assert MessageOk(w, n.epoch, n.members, b, n.links[b].inbox[0]);
        EventStays(w, n.epoch, n.members, b, n.links[b].keys, n.links[b].inbox[0], epoch);
      }
    case Settle(u) =>
    case PutOut(u) =>
  }

  lemma AcceptKeepsKeys(n: Net, u: UserId, v: UserId)
    requires u in n.links && n.links[u].outbox != [] && v in n.links
    ensures var m := AcceptNext(n, u);
      && m.epoch == n.epoch && m.members == n.members && v in m.links
      && m.links[v] == n.links[v].(inbox := m.links[v].inbox, outbox := m.links[v].outbox)
  {
  }

  lemma {:induction false} DeliveriesLeaveLost(w: World, n: Net, moves: seq<Move>, epoch: Epoch, members: Members, b: UserId)
    requires NetOk(w, n) && IsLost(w, n, epoch, members, b) && CanRun(w, n, moves)
    requires forall i :: 0 <= i < |moves| ==> IsDelivery(moves[i])
    ensures IsLost(w, RunNet(w, n, moves), epoch, members, b)
    decreases |moves|
  {
    hide NetOk, IsLost, Next, Enabled;
    if moves != [] {
      DeliveryLeavesLost(w, n, moves[0], epoch, members, b);
      NextOk(w, n, moves[0]);
      DeliveriesLeaveLost(w, Next(w, n, moves[0]), moves[1..], epoch, members, b);
    }
  }

  lemma Resting(w: World, start: Net, moves: seq<Move>, n: Net, a: UserId, b: UserId) returns (more: seq<Move>)
    requires Starts(w, start) && Reaches(w, start, moves, n) && |w.accounts| * 4 < MAX_EARLY && n.epoch == start.epoch + 4
    requires IsLost(w, n, n.epoch, n.members, b)
    ensures CanRun(w, n, more) && Reaches(w, start, moves + more, RunNet(w, n, more)) && AtRest(RunNet(w, n, more))
    ensures forall i :: 0 <= i < |more| ==> IsDelivery(more[i])
    ensures IsLost(w, RunNet(w, n, more), n.epoch, n.members, b)
  {
    hide Starts, CanRun, RunNet, AllInformed, AllFit, AllSent, NetOk, IsClogged, AtRest, IsLost, KeysFit;
    ReachedIsSound(w, start, moves, n);
    more := EverythingArrives(w, n);
    RunsJoin(w, start, moves, more);
    DeliveriesLeaveLost(w, n, more, n.epoch, n.members, b);
    StartOk(w, start);
    StartKeysFit(w, start);
    RunsKeepKeysFit(w, start.epoch, start, moves + more);
    LostEpoch(w, RunNet(w, n, more), n.epoch, n.members, b);
    FewKeysDontClog(w, start.epoch, RunNet(w, n, more));
  }

  lemma LostEpoch(w: World, n: Net, epoch: Epoch, members: Members, b: UserId)
    requires IsLost(w, n, epoch, members, b)
    ensures n.epoch == epoch && n.members == members && b in n.links && n.links[b].keys.room.Some? && !Listens(n, b)
  {
  }

  /** Two people enter a room. The second is kicked, and let in again while the kick is still on
      its way; their client acts on it then, and joins once more. The server has them both in the
      room, and both clients are in it; nothing is on its way, nothing was refused and no
      connection was lost; and the second hears nothing of the first. */
  lemma AMemberHearsNobody(w: World, start: Net, a: UserId, b: UserId) returns (moves: seq<Move>)
    requires Starts(w, start) && a in start.links && b in start.links && a != b && |w.accounts| * 4 < MAX_EARLY
    ensures CanRun(w, start, moves) && forall i :: 0 <= i < |moves| ==> !moves[i].Refuse? && !moves[i].Reconnect?
    ensures var n := RunNet(w, start, moves);
      && AtRest(n) && a in n.members && b in n.members && b in n.links && n.links[b].keys.room == Some(w.room)
      && !Listens(n, b) && forall id :: id in TrackIds(n.members[a]) ==> !Hears(n, b, a, id)
  {
    hide Starts, CanRun, RunNet, Sound, Next, Enabled, IsLost, AtRest, IsDeaf, Hears, Listens, TrackIds;
    StartScene(w, start, a, b);
    var pa, n1 := EnterScene(w, start, [], start, a, b, {}, 0, a);
    moves := [] + [Enter(a, pa)];
    SameSet({} + {a}, {a});
    var n2 := SettleScene(w, start, moves, n1, a, b, {a}, 0, a);
    moves := moves + [Settle(a)];
    var pb, n3 := EnterScene(w, start, moves, n2, a, b, {a}, 0, b);
    moves := moves + [Enter(b, pb)];
    SameSet({a} + {b}, {a, b});
    var n4 := SettleScene(w, start, moves, n3, a, b, {a, b}, 0, b);
    moves := moves + [Settle(b)];
    var pk, n5 := KickScene(w, start, moves, n4, a, b);
    moves := moves + [Kick(b, pk, true)];
    var pe, n6 := EnterScene(w, start, moves, n5, a, b, {a}, 1, b);
    moves := moves + [Enter(b, pe)];
    var n7 := SettleScene(w, start, moves, n6, a, b, {a, b}, 1, b);
    moves := moves + [Settle(b)];
    var n8 := PutOutScene(w, start, moves, n7, a, b);
    moves := moves + [PutOut(b)];
    var pq, n9 := AskScene(w, start, moves, n8, a, b);
    moves := moves + [Ask(b, pq)];
    var n10 := SettleScene(w, start, moves, n9, a, b, {a, b}, 0, b);
    moves := moves + [Settle(b)];
    NowLost(w, n10, a, b);
    var more := Resting(w, start, moves, n10, a, b);
    moves := moves + more;
    EndsLost(w, start, moves, n10, a, b);
  }

  lemma StartScene(w: World, start: Net, a: UserId, b: UserId)
    requires Starts(w, start) && a in start.links && b in start.links
    ensures Reaches(w, start, [], start) && Scene(w, start, start.epoch, a, b, {}, 0) && NoAnswer(start, a) && NoAnswer(start, b)
  {
    hide Honest, IsSelf;
    assert StartsAs(w, start, a) && StartsAs(w, start, b);
  }

  lemma NowLost(w: World, n: Net, a: UserId, b: UserId)
    requires Scene(w, n, n.epoch, a, b, {a, b}, 0) && NoAnswer(n, b)
    requires n.links[b].keys.room.Some? && IsDeaf(w, n.epoch, n.links[b].keys)
    ensures IsLost(w, n, n.epoch, n.members, b)
  {
  }

  lemma EndsLost(w: World, start: Net, moves: seq<Move>, n: Net, a: UserId, b: UserId)
    requires Starts(w, start) && CanRun(w, start, moves) && AtRest(RunNet(w, start, moves)) && a != b
    requires IsLost(w, RunNet(w, start, moves), n.epoch, n.members, b) && n.members.Keys == {a, b}
    ensures var t := RunNet(w, start, moves);
      && a in t.members && b in t.members && b in t.links && t.links[b].keys.room == Some(w.room)
      && !Listens(t, b) && forall id :: id in TrackIds(t.members[a]) ==> !Hears(t, b, a, id)
  {
    hide Starts, CanRun, RunNet, Sound, AtRest, IsLost, Hears, Speaks, Listens, TrackIds;
    var t := RunNet(w, start, moves);
    LostEpoch(w, t, n.epoch, n.members, b);
    RunsAreSound(w, start, moves);
    SoundRoom(w, t, b);
    forall id | id in TrackIds(t.members[a]) ensures !Hears(t, b, a, id) {
      HeardExactly(w, start, moves, a, b, id);
    }
  }

  lemma SoundRoom(w: World, n: Net, u: UserId)
    requires Sound(w, n) && u in n.links
    ensures n.links[u].keys.room.Some? ==> n.links[u].keys.room.value == w.room
  {
    hide NetOk;
    InRoomIs(w, n, u);
  }

  // ---- Such a room ---------------------------------------------------------------------

  const TWO_PEOPLE: World :=
    World(0, 7, 0, 0, map[1 := Account(101, SignedKey(201, 1, By(101, 0, 1, 1, 201))),
                          2 := Account(102, SignedKey(202, 1, By(102, 0, 2, 1, 202)))])

  function Beginner(u: UserId): Link
    requires u in TWO_PEOPLE.accounts
  {
    Restart(TWO_PEOPLE, New(u, 0, {}, KeyOf(TWO_PEOPLE, u), map[], 0, 0), map[])
  }

  const BOTH_IN_THE_LOBBY: Net := Net(0, map[], 0, map[1 := Beginner(1), 2 := Beginner(2)])

  /** So the property fails of a room of two. */
  lemma OneHearsNobody() returns (moves: seq<Move>)
    ensures Starts(TWO_PEOPLE, BOTH_IN_THE_LOBBY) && CanRun(TWO_PEOPLE, BOTH_IN_THE_LOBBY, moves)
    ensures var n := RunNet(TWO_PEOPLE, BOTH_IN_THE_LOBBY, moves);
      && AtRest(n) && 1 in n.members && 2 in n.members && 2 in n.links && n.links[2].keys.room == Some(7)
      && forall id :: id in TrackIds(n.members[1]) ==> !Hears(n, 2, 1, id)
  {
    hide CanRun, RunNet, AtRest, Hears, Listens, TrackIds;
    TheyStart();
    hide Starts;
    moves := AMemberHearsNobody(TWO_PEOPLE, BOTH_IN_THE_LOBBY, 1, 2);
  }

  lemma TheyStart()
    ensures Starts(TWO_PEOPLE, BOTH_IN_THE_LOBBY) && |TWO_PEOPLE.accounts| == 2
  {
    var n := BOTH_IN_THE_LOBBY;
    SameSet(n.links.Keys, TWO_PEOPLE.accounts.Keys);
    forall u | u in n.links ensures StartsAs(TWO_PEOPLE, n, u) {
    }
  }
}
