/**
 Who is sent what, in the terms of the sessions alone: the subscribers of each media id and the
 receivers that members are told of, in every state the hub can be in.
 */
module HubForwarding {
  import opened Collections
  import opened HubModel
  import opened HubInvariants
  import opened HubSteps
  import opened HubRuns

  // ---- Lists of connections and users --------------------------------------------------------

  lemma {:induction false} ConnsAre(sessions: Sessions, users: seq<UserId>, c: ConnId)
    ensures c in ConnsOf(sessions, users) <==> exists m :: m in users && m in sessions && sessions[m].conn == c
  {
    if users != [] {
      ConnsAre(sessions, users[1..], c);
      assert forall m :: m in users <==> m == users[0] || m in users[1..];
    }
  }

  ghost predicate Once<T>(s: seq<T>) {
    forall i, j :: 0 <= i < j < |s| ==> s[i] != s[j]
  }

  lemma {:induction false} ConnsOnce(sessions: Sessions, users: seq<UserId>)
    requires Once(users)
    requires forall u, v :: u in sessions && v in sessions && u != v ==> sessions[u].conn != sessions[v].conn
    ensures Once(ConnsOf(sessions, users))
  {
    if users != [] {
      var rest := ConnsOf(sessions, users[1..]);
      ConnsOnce(sessions, users[1..]);
      if users[0] in sessions {
        ConnsAre(sessions, users[1..], sessions[users[0]].conn);
        assert users[0] !in users[1..];
        assert forall j :: 0 <= j < |rest| ==> rest[j] in rest;
      }
    }
  }

  /** The connections of a set of users, each once. */
  lemma RouteReaches(h: Hub, owner: ConnId, kind: Kind, users: set<UserId>, c: ConnId)
    requires ConnsDiffer(h)
    ensures var route := RouteTo(h.sessions, owner, kind, users);
      && route.owner == owner && route.kind == kind && Once(route.subscribers)
      && (c in route.subscribers <==> exists m :: m in users && m in h.sessions && h.sessions[m].conn == c)
  {
    OrderedHas(users);
    OrderedRises(users);
    ConnsOnce(h.sessions, Ordered(users));
    ConnsAre(h.sessions, Ordered(users), c);
    assert forall m :: m in Ordered(users) <==> m in users;
  }

  // ---- Routes --------------------------------------------------------------------------------

  /** `m` is someone else in the room of `u`, connected by `c`. */
  ghost predicate IsOther(h: Hub, u: UserId, m: UserId, c: ConnId)
    requires u in h.sessions
  {
    m in h.sessions && m != u && h.sessions[m].room == h.sessions[u].room && h.sessions[m].conn == c
  }

  lemma OthersAre(h: Hub, u: UserId, m: UserId, c: ConnId)
    requires InStep(h.sessions, h.rooms) && u in h.sessions && h.sessions[u].room.Some?
    ensures IsOther(h, u, m, c) <==>
      m in OthersIn(h.sessions, MembersOf(h.rooms, h.sessions[u].room.value), u) && m in h.sessions && h.sessions[m].conn == c
  {
    if m in h.sessions {
      assert SessionFits(h.sessions, h.rooms, m);
    }
    if m in MembersOf(h.rooms, h.sessions[u].room.value) {
      assert RoomOf(h.sessions, m) == h.sessions[u].room;
    }
  }

  /** One route of `u` goes to the connections of these users. */
  ghost predicate Goes(h: Hub, u: UserId, id: MediaId, kind: Kind, c: ConnId, reached: bool)
    requires u in h.sessions
  {
    && id in h.table
    && h.table[id].owner == h.sessions[u].conn && h.table[id].kind == kind
    && Once(h.table[id].subscribers)
    && (c in h.table[id].subscribers <==> reached)
  }

  lemma TracksGo(h: Hub, u: UserId, c: ConnId)
    requires HubInv(h) && u in h.sessions && h.sessions[u].tracks.Some?
    ensures var t := h.sessions[u].tracks.value;
      && Goes(h, u, t.mic, AudioKind, c, exists m :: IsOther(h, u, m, c) && !h.sessions[m].deafened)
      && Goes(h, u, t.video, VideoKind, c, exists m :: IsOther(h, u, m, c) && t.video in h.sessions[m].watching)
      && Goes(h, u, t.audio, AudioKind, c, exists m :: IsOther(h, u, m, c) && t.audio in h.sessions[m].watching && !h.sessions[m].deafened)
  {
    hide Fresh, AllKnow, WithinCaps, IsStored, AllNumbered, RouteTo;
    assert SessionFits(h.sessions, h.rooms, u) && FromOne(h.sessions[u].tracks.value);
    var t, s, members := h.sessions[u].tracks.value, h.sessions[u].conn, MembersOf(h.rooms, h.sessions[u].room.value);
    TableForwards(h, t.mic);
    TableForwards(h, t.video);
    TableForwards(h, t.audio);
    assert SendsOn(h.sessions, u, t.mic) && SendsOn(h.sessions, u, t.video) && SendsOn(h.sessions, u, t.audio);
    forall m ensures IsOther(h, u, m, c) <==> m in OthersIn(h.sessions, members, u) && m in h.sessions && h.sessions[m].conn == c {
      OthersAre(h, u, m, c);
    }
    RouteReaches(h, s, AudioKind, Hearing(h.sessions, members, u), c);
    RouteReaches(h, s, VideoKind, Seeing(h.sessions, members, u, t), c);
    RouteReaches(h, s, AudioKind, HearingShare(h.sessions, members, u, t), c);
  }

  /** In every state there can be, a member's voice goes to exactly the others in their room who
      aren't deafened, the picture of their share to those who watch it, and its sound to those who
      watch that and aren't deafened: to the connection of each, once, and from the member's own. */
  lemma TracksReachWhomTheyShould(epochs: map<RoomId, Epoch>, nextRoom: RoomId, nextMedia: nat, ops: seq<Op>, u: UserId, c: ConnId)
    requires nextMedia <= U32_MAX + 1 && forall r :: r in epochs ==> r < nextRoom && epochs[r] <= U32_MAX
    requires var h := Run(Started(epochs, nextRoom, nextMedia), ops); u in h.sessions && h.sessions[u].tracks.Some?
    ensures var h := Run(Started(epochs, nextRoom, nextMedia), ops);
            var t := h.sessions[u].tracks.value;
      && Goes(h, u, t.mic, AudioKind, c, exists m :: IsOther(h, u, m, c) && !h.sessions[m].deafened)
      && Goes(h, u, t.video, VideoKind, c, exists m :: IsOther(h, u, m, c) && t.video in h.sessions[m].watching)
      && Goes(h, u, t.audio, AudioKind, c, exists m :: IsOther(h, u, m, c) && t.audio in h.sessions[m].watching && !h.sessions[m].deafened)
  {
    hide HubInv, Apply, Goes;
    StartKeeps(epochs, nextRoom, nextMedia);
    RunsKeep(Started(epochs, nextRoom, nextMedia), ops);
    TracksGo(Run(Started(epochs, nextRoom, nextMedia), ops), u, c);
  }

  /** And nothing is forwarded but the tracks of members. */
  lemma NothingElseIsForwarded(epochs: map<RoomId, Epoch>, nextRoom: RoomId, nextMedia: nat, ops: seq<Op>, id: MediaId)
    requires nextMedia <= U32_MAX + 1 && forall r :: r in epochs ==> r < nextRoom && epochs[r] <= U32_MAX
    ensures var h := Run(Started(epochs, nextRoom, nextMedia), ops);
      id in h.table <==> exists u :: u in h.sessions && h.sessions[u].room.Some? && h.sessions[u].tracks.Some? &&
                           var t := h.sessions[u].tracks.value; (id == t.mic || id == t.video || id == t.audio)
  {
    hide Apply, Fresh, AllKnow, WithinCaps, IsStored, AllNumbered, ConnsDiffer, IdsApart;
    StartKeeps(epochs, nextRoom, nextMedia);
    RunsKeep(Started(epochs, nextRoom, nextMedia), ops);
    var h := Run(Started(epochs, nextRoom, nextMedia), ops);
    TableForwards(h, id);
    if id in h.table {
      var u :| SendsOn(h.sessions, u, id);
      assert SessionFits(h.sessions, h.rooms, u);
    }
    if u :| u in h.sessions && h.sessions[u].room.Some? && h.sessions[u].tracks.Some? &&
            var t := h.sessions[u].tracks.value; (id == t.mic || id == t.video || id == t.audio) {
      assert SendsOn(h.sessions, u, id);
    }
  }

  // ---- What members are told -----------------------------------------------------------------

  lemma {:induction false} AudienceListHas(sessions: Sessions, members: set<UserId>, users: seq<UserId>, a: Audience)
    ensures a in AudienceList(sessions, members, users) <==> exists u :: u in users && a in AudienceOf(sessions, members, u)
  {
    hide AudienceOf;
    if users != [] {
      var shorter, last := users[..|users| - 1], users[|users| - 1];
      AudienceListHas(sessions, members, shorter, a);
      assert users == shorter + [last];
      assert forall u :: u in users <==> u in shorter || u == last;
    }
  }

  /** Someone else in the room of `u` who is sent the picture or the sound of their share. */
  ghost predicate Receives(h: Hub, u: UserId, m: UserId)
    requires u in h.sessions && h.sessions[u].tracks.Some?
  {
    && m in h.sessions && m != u && h.sessions[m].room == h.sessions[u].room
    && (h.sessions[u].tracks.value.video in h.sessions[m].watching
        || (h.sessions[u].tracks.value.audio in h.sessions[m].watching && !h.sessions[m].deafened))
  }

  /** A list of who receives what is that of the running share of `u`, in order. */
  ghost predicate IsAudienceOf(h: Hub, u: UserId, a: Audience) {
    && u in h.sessions && h.sessions[u].tracks.Some? && h.sessions[u].share.Some?
    && a.video == h.sessions[u].tracks.value.video && a.receivers != []
    && (forall m :: m in a.receivers <==> Receives(h, u, m))
    && (forall i, j :: 0 <= i < j < |a.receivers| ==> a.receivers[i] < a.receivers[j])
  }

  lemma AudienceIs(h: Hub, r: RoomId, u: UserId, a: Audience)
    requires InStep(h.sessions, h.rooms) && RoomOf(h.sessions, u) == Some(r)
    ensures a in AudienceOf(h.sessions, MembersOf(h.rooms, r), u) ==> IsAudienceOf(h, u, a)
    ensures h.sessions[u].tracks.Some? && h.sessions[u].share.Some? ==> forall m :: Receives(h, u, m) ==>
      exists a :: a in AudienceOf(h.sessions, MembersOf(h.rooms, r), u)
  {
    hide Receives;
    if h.sessions[u].tracks.Some? && h.sessions[u].share.Some? {
      var t, members := h.sessions[u].tracks.value, MembersOf(h.rooms, r);
      var receivers := Receivers(h.sessions, members, u, t);
      OrderedHas(receivers);
      OrderedRises(receivers);
      forall m ensures m in receivers <==> Receives(h, u, m) {
        ReceivesIs(h, r, u, m);
      }
      forall m | Receives(h, u, m) ensures AudienceOf(h.sessions, members, u) == [Audience(t.video, Ordered(receivers))] {
        assert m in receivers;
      }
      assert receivers != {} ==> Audience(t.video, Ordered(receivers)) in AudienceOf(h.sessions, members, u);
    }
  }

  lemma ReceivesIs(h: Hub, r: RoomId, u: UserId, m: UserId)
    requires InStep(h.sessions, h.rooms) && RoomOf(h.sessions, u) == Some(r) && h.sessions[u].tracks.Some?
    ensures Receives(h, u, m) <==> m in Receivers(h.sessions, MembersOf(h.rooms, r), u, h.sessions[u].tracks.value)
  {
    if m in h.sessions {
      OthersAre(h, u, m, h.sessions[m].conn);
    }
  }

  lemma AudiencesAre(h: Hub, r: RoomId, u: UserId)
    requires InStep(h.sessions, h.rooms) && r in h.rooms
    ensures var list := AudiencesIn(h.sessions, h.rooms, r);
      && (forall a :: a in list ==> exists u :: RoomOf(h.sessions, u) == Some(r) && IsAudienceOf(h, u, a))
      && (RoomOf(h.sessions, u) == Some(r) && h.sessions[u].tracks.Some? && h.sessions[u].share.Some? && (exists m :: Receives(h, u, m)) ==>
            exists a :: a in list && IsAudienceOf(h, u, a))
  {
    hide AudienceOf, IsAudienceOf, Receives;
    var members := MembersOf(h.rooms, r);
    OrderedHas(members);
    forall a | a in AudiencesIn(h.sessions, h.rooms, r) ensures exists u :: RoomOf(h.sessions, u) == Some(r) && IsAudienceOf(h, u, a) {
      AudienceListHas(h.sessions, members, Ordered(members), a);
      var u :| u in Ordered(members) && a in AudienceOf(h.sessions, members, u);
      assert RoomOf(h.sessions, u) == Some(r);
      AudienceIs(h, r, u, a);
    }
    if RoomOf(h.sessions, u) == Some(r) && h.sessions[u].tracks.Some? && h.sessions[u].share.Some? && exists m :: Receives(h, u, m) {
      assert SessionFits(h.sessions, h.rooms, u);
      AudienceIs(h, r, u, Audience(0, []));
      var a :| a in AudienceOf(h.sessions, members, u);
      AudienceIs(h, r, u, a);
      AudienceListHas(h.sessions, members, Ordered(members), a);
    }
  }

  /** In every state there can be, the last list a member's connection was told has the running shares
      of their room that anyone receives, each with exactly its receivers, and nothing else. */
  lemma MembersAreToldWhoReceives(epochs: map<RoomId, Epoch>, nextRoom: RoomId, nextMedia: nat, ops: seq<Op>, me: UserId, u: UserId)
    requires nextMedia <= U32_MAX + 1 && forall r :: r in epochs ==> r < nextRoom && epochs[r] <= U32_MAX
    requires var h := Run(Started(epochs, nextRoom, nextMedia), ops); me in h.sessions && h.sessions[me].room.Some?
    ensures var h := Run(Started(epochs, nextRoom, nextMedia), ops);
      && h.sessions[me].told != []
      && var list := h.sessions[me].told[|h.sessions[me].told| - 1].shares;
      && (forall a :: a in list ==> exists u :: RoomOf(h.sessions, u) == h.sessions[me].room && IsAudienceOf(h, u, a))
      && (u in h.sessions && h.sessions[u].room == h.sessions[me].room && h.sessions[u].tracks.Some? && h.sessions[u].share.Some?
            && (exists m :: Receives(h, u, m)) ==>
            exists a :: a in list && IsAudienceOf(h, u, a))
  {
    hide HubInv, Apply, IsAudienceOf, Receives, AudiencesIn;
    var h := Run(Started(epochs, nextRoom, nextMedia), ops);
    StartKeeps(epochs, nextRoom, nextMedia);
    RunsKeep(Started(epochs, nextRoom, nextMedia), ops);
    RoutesAreFresh(epochs, nextRoom, nextMedia, ops, me);
    StepsAgree(h, me);
    AudiencesAre(h, h.sessions[me].room.value, u);
  }

  lemma StepsAgree(h: Hub, me: UserId)
    requires HubInv(h)
    ensures InStep(h.sessions, h.rooms)
    ensures me in h.sessions && h.sessions[me].room.Some? ==> h.sessions[me].room.value in h.rooms
  {
    hide Fresh, AllKnow, WithinCaps, IsStored, AllNumbered, ConnsDiffer, IdsApart;
    if me in h.sessions {
      assert SessionFits(h.sessions, h.rooms, me);
    }
  }
}
