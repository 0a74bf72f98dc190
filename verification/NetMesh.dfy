/** The room at rest: nothing on its way, and every member can hear every other. */
module NetMesh {
  import opened Collections
  import opened KeyModel
  import opened KeyInvariants
  import opened KeyTheorems
  import opened KeyRuns
  import opened NetModel
  import opened NetSafety
  import opened NetArrival
  import opened NetRuns
  import opened NetRest
  import opened NetTracks
  import opened NetSecrets

  // ---- The list of the room is valid ---------------------------------------------------

  /** Peers of different users whose tracks don't meet. */
  ghost predicate KeepApart(peers: seq<Peer>) {
    && (forall p :: p in peers ==> p.tracks == TracksFrom(p.tracks.mic))
    && forall i, j :: 0 <= i < j < |peers| ==> Apart(peers[i].tracks, peers[j].tracks)
  }

  lemma IdsFrom(first: MediaId)
    ensures TrackIds(TracksFrom(first)) == [first, first + 1, first + 2]
  {
    var shares := TracksFrom(first).shares;
    assert shares[1..] == [];
    assert ShareIds(shares) == [shares[0].video, shares[0].audio] + ShareIds(shares[1..]);
  }

  lemma {:induction false} ListedId(peers: seq<Peer>, id: MediaId)
    requires KeepApart(peers) && id in AllTrackIds(peers)
    ensures exists i :: 0 <= i < |peers| && peers[i].tracks.mic <= id <= peers[i].tracks.mic + 2
  {
    var p, rest := peers[0], peers[1..];
    IdsFrom(p.tracks.mic);
    if id in TrackIds(p.tracks) {
      assert peers[0].tracks.mic <= id <= peers[0].tracks.mic + 2;
    } else {
      RestKeepsApart(peers);
      ListedId(rest, id);
      var i :| 0 <= i < |rest| && rest[i].tracks.mic <= id <= rest[i].tracks.mic + 2;
      assert peers[i + 1] == rest[i];
    }
  }

  lemma RestKeepsApart(peers: seq<Peer>)
    requires KeepApart(peers) && peers != []
    ensures KeepApart(peers[1..])
  {
    var rest := peers[1..];
    forall i, j | 0 <= i < j < |rest| ensures Apart(rest[i].tracks, rest[j].tracks) {
      assert Apart(peers[i + 1].tracks, peers[j + 1].tracks);
    }
  }

  lemma {:induction false} ApartAreDistinct(peers: seq<Peer>)
    requires KeepApart(peers)
    ensures Distinct(AllTrackIds(peers))
  {
    if peers != [] {
      var p, rest := peers[0], peers[1..];
      RestKeepsApart(peers);
      ApartAreDistinct(rest);
      IdsFrom(p.tracks.mic);
      forall id | id in AllTrackIds(rest) ensures id !in TrackIds(p.tracks) {
        ListedId(rest, id);
        var i :| 0 <= i < |rest| && rest[i].tracks.mic <= id <= rest[i].tracks.mic + 2;
        assert Apart(peers[0].tracks, peers[i + 1].tracks);
      }
      JoinDistinct(TrackIds(p.tracks), AllTrackIds(rest));
    }
  }

  lemma JoinDistinct(a: seq<int>, b: seq<int>)
    requires Distinct(a) && Distinct(b) && forall x :: x in b ==> x !in a
    ensures Distinct(a + b)
  {
    forall i, j | 0 <= i < j < |a + b| ensures (a + b)[i] != (a + b)[j] {
      if i < |a| && |a| <= j {
        assert b[j - |a|] in b;
      }
    }
  }

  lemma {:induction false} OthersDistinct(me: UserId, peers: seq<Peer>)
    requires Distinct(UserList(peers))
    ensures Distinct(UserList(Others(me, peers)))
  {
    if peers != [] {
      var rest, others := peers[1..], Others(me, peers[1..]);
      forall i, j | 0 <= i < j < |rest| ensures UserList(rest)[i] != UserList(rest)[j] {
        assert UserList(peers)[i + 1] != UserList(peers)[j + 1];
      }
      OthersDistinct(me, rest);
      OthersAre(me, rest);
      if peers[0].user != me {
        forall x | x in UserList(others) ensures x !in UserList([peers[0]]) {
          var k :| 0 <= k < |others| && UserList(others)[k] == x;
          assert others[k] in rest;
          var i :| 0 <= i < |rest| && rest[i] == others[k];
          assert UserList(peers)[0] != UserList(peers)[i + 1];
        }
        JoinDistinct(UserList([peers[0]]), UserList(others));
        assert UserList([peers[0]] + others) == UserList([peers[0]]) + UserList(others);
      }
    }
  }

  lemma OthersKeepApart(w: World, n: Net, u: UserId, peers: seq<Peer>, mine: Peer)
    requires MembersOk(n) && Describes(w, peers, n.members) && mine.user == u && Fits(n, u, mine.tracks)
    ensures KeepApart([mine] + Others(u, peers))
  {
    var others := Others(u, peers);
    var all := [mine] + others;
    OthersAre(u, peers);
    OthersDistinct(u, peers);
    forall i | 0 <= i < |others| ensures others[i].user in n.members && others[i].user != u && others[i].tracks == n.members[others[i].user] {
      assert others[i] in others;
      assert others[i] in peers;
    }
    forall i, j | 0 <= i < j < |all| ensures Apart(all[i].tracks, all[j].tracks) {
      if i > 0 {
        assert UserList(others)[i - 1] != UserList(others)[j - 1];
      }
      assert all[i].user != all[j].user;
    }
    forall p | p in all ensures p.tracks == TracksFrom(p.tracks.mic) {
      assert p == mine || p in others;
    }
  }

  /** A member trusts the list of the room it is given. */
  lemma DescribedIsValid(w: World, n: Net, u: UserId, k: Keys)
    requires MembersOk(n) && Describes(w, k.roomPeers, n.members)
    requires k.me == u && k.myTracks.Some? && Fits(n, u, k.myTracks.value) && u in w.accounts
    ensures !IsInvalid(k, k.roomPeers)
  {
    hide KeepApart;
    var others := Others(u, k.roomPeers);
    var mine := PeerOf(w, u, k.myTracks.value, 0);
    var all := [mine] + others;
    OthersDistinct(u, k.roomPeers);
    OthersKeepApart(w, n, u, k.roomPeers, mine);
    ApartAreDistinct(all);
    assert all[1..] == others;
    assert MyTrackIds(k) + AllTrackIds(others) == AllTrackIds(all);
  }

  // ---- Everyone trusts everyone --------------------------------------------------------

  /** Nothing is on its way: no event, no request, no answer, no kick. */
  ghost predicate AtRest(n: Net) {
    forall u :: u in n.links ==> n.links[u].inbox == [] && n.links[u].outbox == [] && n.links[u].answer.None? && n.links[u].kicks == 0
  }

  /** A member that takes itself to be in the room knows all of it, at rest. */
  lemma KnowsTheRoom(w: World, n: Net, u: UserId)
    requires NetOk(w, n) && AllInformed(w, n) && AtRest(n) && u in n.members && u in n.links && n.links[u].keys.room.Some?
    ensures var k := n.links[u].keys;
      && k.room == Some(w.room) && k.epoch == n.epoch && k.mySecret.Some? && k.me == u && u in w.accounts
      && Describes(w, k.roomPeers, n.members)
      && k.peers == TrustedNow(k, w.room, k.roomPeers, w.unix)
      && forall v :: v in n.members ==> Presence(k.present, v) == Some(w.room)
  {
    hide Conveyed, Honest, Core, Settled, EarlyOnesWait, PeersOk, Describes, Fixed, MembersOk, TrustedNow, PresencesOk, Presence;
    var l := n.links[u];
    assert LinkOk(w, n.epoch, n.members, u, l) && Informed(w, n.epoch, n.members, u, l);
    KnowsWhoIsIn(w, n.members, l);
  }

  lemma KnowsWhoIsIn(w: World, members: Members, l: Link)
    requires PresencesOk(w, members, l) && l.inbox == [] && members.Keys <= w.accounts.Keys
    ensures forall v :: v in members ==> Presence(l.keys.present, v) == Some(w.room)
  {
    forall v | v in members ensures Presence(l.keys.present, v) == Some(w.room) {
      assert ShownLast(l.keys.present, l.inbox, v) == ShownAt(w, members, v);
    }
  }

  /** At rest, it trusts every other member, under the tracks it has. */
  lemma TrustsEveryone(w: World, n: Net, u: UserId, v: UserId)
    requires NetOk(w, n) && AllInformed(w, n) && AllFit(n) && AtRest(n) && u in n.members && v in n.members && u != v
    requires u in n.links && n.links[u].keys.room.Some?
    ensures v in n.links[u].keys.peers && v in w.accounts
    ensures n.links[u].keys.peers[v].tracks == n.members[v] && n.links[u].keys.peers[v].encryptionKey == KeyOf(w, v)
  {
    hide NetOk, Informed, Distinct, KeysOk, Fits;
    KnowsTheRoom(w, n, u);
    var k := n.links[u].keys;
    Unrefused(w, n, u);
    assert LinkFits(n, u, n.links[u]);
    DescribedIsValid(w, n, u, k);
    var peers := k.roomPeers;
    var i :| 0 <= i < |peers| && peers[i].user == v;
    var p := peers[i];
    assert p in peers;
    HonestPeer(w, n, k, p);
    OthersDistinct(u, peers);
    OthersOnce(u, peers);
    var listed := k.(unwrappable := Listed(k.unwrappable, peers));
    TrustedHas(listed, w.room, peers, w.unix, p);
  }

  lemma Unrefused(w: World, n: Net, u: UserId)
    requires NetOk(w, n) && u in n.links
    ensures var k := n.links[u].keys; k.unwrappable == map[] && k.server == w.server && k.me == u && Honest(w)
  {
    hide Conveyed, Inv, StatesOk;
    assert LinkOk(w, n.epoch, n.members, u, n.links[u]);
  }

  lemma HonestPeer(w: World, n: Net, k: Keys, p: Peer)
    requires Honest(w) && Describes(w, k.roomPeers, n.members) && p in k.roomPeers && p.user != k.me
    requires k.unwrappable == map[] && k.server == w.server && Presence(k.present, p.user) == Some(w.room)
    ensures IsTrusted(k.(unwrappable := Listed(k.unwrappable, k.roomPeers)), w.room, p, w.unix)
  {
    assert p == PeerOf(w, p.user, n.members[p.user], p.share);
    assert p.user in w.accounts;
  }

  // ---- Who hears whom ------------------------------------------------------------------

  /** What `a` sends on `id`, `b` opens: it holds the key for the epoch that the media names. */
  ghost predicate Hears(n: Net, b: UserId, a: UserId, id: MediaId) {
    && a in n.links && b in n.links
    && SendKey(n.links[a].keys, id).Some?
    && RecvKey(n.links[b].keys, id, SendKey(n.links[a].keys, id).value.0).1 == Some(SendKey(n.links[a].keys, id).value.1)
  }

  /** A member that takes itself to be in the room, with the tracks it has there, and whose secret
      the server didn't refuse to hand out. */
  ghost predicate Speaks(n: Net, a: UserId) {
    && a in n.links && a in n.members
    && var l := n.links[a];
    && l.keys.room.Some? && l.keys.myTracks == Some(n.members[a])
    && (l.keys.mySecret.Some? ==> l.keys.mySecret.value !in l.refused)
  }

  /** A client that takes itself to be in the room, and entered it above its floor. */
  ghost predicate Listens(n: Net, b: UserId) {
    && b in n.links
    && var k := n.links[b].keys;
    && k.room.Some? && (k.floor.Some? ==> k.floor.value < n.epoch)
  }

  ghost predicate Sound(w: World, n: Net) {
    NetOk(w, n) && AllInformed(w, n) && AllFit(n) && AllSent(n)
  }

  /** With nothing on its way, a member who listens hears one who speaks. */
  lemma HearsEach(w: World, n: Net, a: UserId, b: UserId, id: MediaId)
    requires Sound(w, n) && AtRest(n)
    requires a in n.members && b in n.members && a != b && id in TrackIds(n.members[a])
    requires Speaks(n, a) && Listens(n, b)
    ensures Hears(n, b, a, id) && SendKey(n.links[a].keys, id).value.0 == n.epoch
  {
    hide NetOk, Informed, MembersOk, AllFit, AllSent, Describes, Inv, TrustedNow, RecvKey, KeysOk;
    KnowsTheRoom(w, n, a);
    KnowsTheRoom(w, n, b);
    TrustsEveryone(w, n, a, b);
    TrustsEveryone(w, n, b, a);
    WasGiven(w, n, a, b);
    SecretIsStored(w, n, a, b);
    SendsOn(w, n, a, id);
    ReceivesOn(w, n, b, a, id);
  }

  /** Whoever is heard speaks. */
  lemma HeardSpeaks(w: World, n: Net, a: UserId, b: UserId, id: MediaId)
    requires Sound(w, n) && AtRest(n) && a in n.members && id in TrackIds(n.members[a]) && Hears(n, b, a, id)
    ensures Speaks(n, a) && SendKey(n.links[a].keys, id).value.0 == n.epoch
    ensures SendKey(n.links[a].keys, id).value.1 == Derived(n.links[a].keys.mySecret.value, id)
  {
    hide NetOk, AllInformed, AllSent, MembersOk, Informed, RecvKey, KeysOk, Fits, TrackIds;
    SendsOwn(w, n, a, id);
    KnowsTheRoom(w, n, a);
    assert LinkFits(n, a, n.links[a]);
    MembersFit(n, a);
    FitsIs(n, a, n.members[a]);
    OneOfTheirs(n, a, n.links[a].keys.myTracks.value, id);
    HeardIsKnown(w, n, a, b, id);
  }

  /** A client that sends is in the room, on one of the tracks it takes for its own. */
  lemma SendsOwn(w: World, n: Net, a: UserId, id: MediaId)
    requires NetOk(w, n) && a in n.links && SendKey(n.links[a].keys, id).Some?
    ensures var k := n.links[a].keys;
      && k.room.Some? && k.mySecret.Some? && SendKey(k, id) == Some((k.epoch, Derived(k.mySecret.value, id)))
      && k.myTracks.Some? && id in TrackIds(k.myTracks.value)
  {
    hide Conveyed, StatesOk, PeersOk, EarlyOnesWait, Core, PeerSet, TrackIds;
    assert LinkOk(w, n.epoch, n.members, a, n.links[a]);
  }

  lemma FitsIs(n: Net, a: UserId, t: Tracks)
    requires Fits(n, a, t)
    ensures t == TracksFrom(t.mic)
  {
  }

  lemma OneOfTheirs(n: Net, a: UserId, t: Tracks, id: MediaId)
    requires a in n.members && Fits(n, a, t) && n.members[a] == TracksFrom(n.members[a].mic)
    requires id in TrackIds(t) && id in TrackIds(n.members[a])
    ensures t == n.members[a]
  {
    IdsFrom(t.mic);
    IdsFrom(n.members[a].mic);
  }

  /** What is opened with a secret was stored. */
  lemma HeardIsKnown(w: World, n: Net, a: UserId, b: UserId, id: MediaId)
    requires NetOk(w, n) && AllSent(n) && a in n.links && b in n.links && n.links[a].keys.mySecret.Some?
    requires exists epoch :: RecvKey(n.links[b].keys, id, epoch).1 == Some(Derived(n.links[a].keys.mySecret.value, id))
    ensures n.links[a].keys.mySecret.value !in n.links[a].refused
  {
    hide Conveyed, StatesOk, PeersOk, EarlyOnesWait, Core, Settled, RecvKey, AllSent;
    var k := n.links[b].keys;
    var epoch :| RecvKey(k, id, epoch).1 == Some(Derived(n.links[a].keys.mySecret.value, id));
    assert LinkOk(w, n.epoch, n.members, b, n.links[b]);
    CacheIsInvisible(k, id, epoch, w.now);
    if n.links[a].keys.mySecret.value in n.links[a].refused {
      RefusedIsUnknown(n, a, b, n.links[a].keys.mySecret.value, (k.owners[id], epoch));
    }
  }

  /** Whoever hears media of the room's epoch listens. */
  lemma HearingListens(w: World, n: Net, b: UserId, id: MediaId)
    requires NetOk(w, n) && b in n.links && RecvKey(n.links[b].keys, id, n.epoch).1.Some?
    ensures Listens(n, b)
  {
    hide Conveyed, StatesOk, PeersOk, EarlyOnesWait, Settled, RecvKey;
    var k := n.links[b].keys;
    assert LinkOk(w, n.epoch, n.members, b, n.links[b]);
    CacheIsInvisible(k, id, n.epoch, w.now);
  }

  lemma WasGiven(w: World, n: Net, a: UserId, b: UserId)
    requires NetOk(w, n) && a in n.links && n.links[a].keys.mySecret.Some?
    requires b in w.accounts && b in n.links[a].keys.peers && n.links[a].keys.peers[b].encryptionKey == KeyOf(w, b)
    ensures Gave(w, n.links[a].keys, b)
  {
    hide Conveyed, StatesOk, PeersOk, EarlyOnesWait, Core, HasSecret, PeerSet;
    var k := n.links[a].keys;
    assert LinkOk(w, n.epoch, n.members, a, n.links[a]);
    PeerSetHas(k.peers, b, KeyOf(w, b));
  }

  lemma SecretIsStored(w: World, n: Net, a: UserId, b: UserId)
    requires NetOk(w, n) && AtRest(n) && a in n.links && b in n.links && a in w.accounts && b in w.accounts
    requires IsOwed(w, n.epoch, n.links[a], b, n.links[b])
    requires n.links[b].keys.room.Some? && n.links[b].keys.epoch == n.epoch && a in n.links[b].keys.peers
    ensures var kb := n.links[b].keys;
      (a, n.epoch) in kb.received && kb.received[(a, n.epoch)].secret == n.links[a].keys.mySecret.value
  {
    hide StatesOk, PeersOk, Core, Settled;
    var kb := n.links[b].keys;
    WrapsAreConveyed(w, n, a, b);
    assert LinkOk(w, n.epoch, n.members, b, n.links[b]);
    assert (a, n.epoch) !in kb.early;
  }

  lemma SendsOn(w: World, n: Net, a: UserId, id: MediaId)
    requires NetOk(w, n) && a in n.links && n.links[a].keys.mySecret.Some? && n.links[a].keys.epoch == n.epoch
    requires a in n.members && n.links[a].keys.myTracks == Some(n.members[a]) && id in TrackIds(n.members[a])
    ensures SendKey(n.links[a].keys, id) == Some((n.epoch, Derived(n.links[a].keys.mySecret.value, id)))
  {
    hide Conveyed, StatesOk, PeersOk, EarlyOnesWait, Core, PeerSet;
    var k := n.links[a].keys;
    assert LinkOk(w, n.epoch, n.members, a, n.links[a]);
    assert id in IdSet(MyTrackIds(k));
  }

  lemma ReceivesOn(w: World, n: Net, b: UserId, a: UserId, id: MediaId)
    requires NetOk(w, n) && b in n.links && Listens(n, b)
    requires var k := n.links[b].keys;
      && k.room.Some? && k.epoch == n.epoch && a in k.peers && a in n.members && k.peers[a].tracks == n.members[a]
      && id in TrackIds(n.members[a]) && (a, n.epoch) in k.received
    ensures var k := n.links[b].keys;
      RecvKey(k, id, n.epoch).1 == Some(Derived(k.received[(a, n.epoch)].secret, id))
  {
    hide Conveyed, StatesOk, PeersOk, Core, EarlyOnesWait, Settled, RecvKey;
    var k := n.links[b].keys;
    assert LinkOk(w, n.epoch, n.members, b, n.links[b]);
    OwnsTrack(k, w.now, a, id);
    CacheIsInvisible(k, id, n.epoch, w.now);
  }

  lemma OwnsTrack(k: Keys, clock: Time, a: UserId, id: MediaId)
    requires Core(k, clock) && a in k.peers && id in TrackIds(k.peers[a].tracks)
    ensures id in k.owners && k.owners[id] == a
  {
    hide TrackIds, CacheIsTrue, StoredAreOurs, OldOnesRetire, RetireInTime;
  }

  lemma StartInforms(w: World, n: Net)
    requires Starts(w, n)
    ensures AllInformed(w, n)
  {
    hide Honest, IsSelf, KeysOk;
    forall u | u in n.links ensures Informed(w, n.epoch, n.members, u, n.links[u]) {
      assert StartsAs(w, n, u);
      RestartInformed(w, n.epoch, n.members, u, n.links[u].keys);
    }
  }

  lemma RunsAreSound(w: World, start: Net, moves: seq<Move>)
    requires Starts(w, start) && CanRun(w, start, moves)
    ensures Sound(w, RunNet(w, start, moves))
  {
    hide NetOk, AllInformed, AllFit, AllSent, Starts, CanRun, RunNet;
    StartOk(w, start);
    StartInforms(w, start);
    StartFits(w, start);
    StartSends(w, start);
    RunsInform(w, start, moves);
    RunsFit(w, start, moves);
    RunsSend(w, start, moves);
  }

  /** Exactly who hears whom, however people entered, left, were kicked or lost their connections,
      and however requests were refused and messages overtook each other: once everything sent has
      been delivered, a member receives every track of another with the very key it is sent with
      if and only if the one listens and the other speaks. */
  lemma HeardExactly(w: World, start: Net, moves: seq<Move>, a: UserId, b: UserId, id: MediaId)
    requires Starts(w, start) && CanRun(w, start, moves) && AtRest(RunNet(w, start, moves))
    requires var n := RunNet(w, start, moves);
      a in n.members && b in n.members && a != b && id in TrackIds(n.members[a])
    ensures var n := RunNet(w, start, moves); Hears(n, b, a, id) <==> Speaks(n, a) && Listens(n, b)
  {
    hide Sound, AtRest, Starts, CanRun, RunNet, Hears, Speaks, Listens;
    var n := RunNet(w, start, moves);
    RunsAreSound(w, start, moves);
    if Speaks(n, a) && Listens(n, b) {
      HearsEach(w, n, a, b, id);
    }
    if Hears(n, b, a, id) {
      HeardSpeaks(w, n, a, b, id);
      HeardListens(w, n, a, b, id);
    }
  }

  lemma HeardListens(w: World, n: Net, a: UserId, b: UserId, id: MediaId)
    requires Sound(w, n) && Hears(n, b, a, id) && SendKey(n.links[a].keys, id).value.0 == n.epoch
    ensures Listens(n, b)
  {
    hide NetOk, RecvKey, SendKey;
    HearingListens(w, n, b, id);
  }
}
