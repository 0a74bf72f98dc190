/** What the loops of the hub do, one turn at a time. */
module HubLoops {
  import opened Collections
  import opened HubModel
  import opened HubInvariants
  import opened HubSteps

  // ---- Picking from ordered members ----------------------------------------------------

  function Filter(users: seq<UserId>, which: UserId -> bool): seq<UserId> {
    if users == [] then [] else (if which(users[0]) then [users[0]] else []) + Filter(users[1..], which)
  }

  function Chosen(users: set<UserId>, which: UserId -> bool): set<UserId> {
    set u | u in users && which(u)
  }

  lemma {:induction false} FilterKeepsOrder(users: set<UserId>, which: UserId -> bool)
    ensures Filter(Ordered(users), which) == Ordered(Chosen(users, which))
    decreases |users|
  {
    var chosen := Chosen(users, which);
    if users == {} {
      forall u ensures u !in chosen {
      }
      SameSet(chosen, {});
    } else {
      var first := Min(users);
      var rest := users - {first};
      assert Ordered(users) == [first] + Ordered(rest);
      assert Ordered(users)[1..] == Ordered(rest);
      FilterKeepsOrder(rest, which);
      if which(first) {
        MinIs(chosen, first);
        forall u ensures u in chosen - {first} <==> u in Chosen(rest, which) {
        }
        SameSet(chosen - {first}, Chosen(rest, which));
      } else {
        forall u ensures u in chosen <==> u in Chosen(rest, which) {
        }
        SameSet(chosen, Chosen(rest, which));
      }
    }
  }

  lemma MinIs(s: set<int>, m: int)
    requires m in s && forall x :: x in s ==> m <= x
    ensures s != {} && Min(s) == m
  {
  }

  function HearsAll(sessions: Sessions, u: UserId): UserId -> bool {
    m => m in sessions && m != u && !sessions[m].deafened
  }

  function SeesShare(sessions: Sessions, u: UserId, t: Tracks): UserId -> bool {
    m => m in sessions && m != u && t.video in sessions[m].watching
  }

  function HearsShare(sessions: Sessions, u: UserId, t: Tracks): UserId -> bool {
    m => m in sessions && m != u && t.audio in sessions[m].watching && !sessions[m].deafened
  }

  function ReceivesShare(sessions: Sessions, u: UserId, t: Tracks): UserId -> bool {
    m => m in sessions && m != u && (t.video in sessions[m].watching || (t.audio in sessions[m].watching && !sessions[m].deafened))
  }

  /** Members picked in order are those the routes are for. */
  lemma PickedInOrder(sessions: Sessions, members: set<UserId>, u: UserId, t: Tracks)
    ensures Filter(Ordered(members), HearsAll(sessions, u)) == Ordered(Hearing(sessions, members, u))
    ensures Filter(Ordered(members), SeesShare(sessions, u, t)) == Ordered(Seeing(sessions, members, u, t))
    ensures Filter(Ordered(members), HearsShare(sessions, u, t)) == Ordered(HearingShare(sessions, members, u, t))
    ensures Filter(Ordered(members), ReceivesShare(sessions, u, t)) == Ordered(Receivers(sessions, members, u, t))
  {
    FilterKeepsOrder(members, HearsAll(sessions, u));
    FilterKeepsOrder(members, SeesShare(sessions, u, t));
    FilterKeepsOrder(members, HearsShare(sessions, u, t));
    FilterKeepsOrder(members, ReceivesShare(sessions, u, t));
    forall m ensures m in Chosen(members, HearsAll(sessions, u)) <==> m in Hearing(sessions, members, u) {
    }
    SameSet(Chosen(members, HearsAll(sessions, u)), Hearing(sessions, members, u));
    forall m ensures m in Chosen(members, SeesShare(sessions, u, t)) <==> m in Seeing(sessions, members, u, t) {
    }
    SameSet(Chosen(members, SeesShare(sessions, u, t)), Seeing(sessions, members, u, t));
    forall m ensures m in Chosen(members, HearsShare(sessions, u, t)) <==> m in HearingShare(sessions, members, u, t) {
    }
    SameSet(Chosen(members, HearsShare(sessions, u, t)), HearingShare(sessions, members, u, t));
    forall m ensures m in Chosen(members, ReceivesShare(sessions, u, t)) <==> m in Receivers(sessions, members, u, t) {
    }
    SameSet(Chosen(members, ReceivesShare(sessions, u, t)), Receivers(sessions, members, u, t));
  }

  // ---- The table, member by member -----------------------------------------------------

  /** The routes of one more member go in beside the others, since no id is on two of them. */
  lemma TableNext(sessions: Sessions, rooms: Rooms, nextMedia: nat, users: set<UserId>, u: UserId, r: RoomId)
    requires IdsApart(sessions, nextMedia) && u !in users && RoomOf(sessions, u) == Some(r)
    ensures TableAmong(sessions, rooms, users + {u}) ==
            TableAmong(sessions, rooms, users) + RoutesOf(sessions, MembersOf(rooms, r), u)
  {
    hide RouteFor, IdsApart, RouteTo;
    var more := users + {u};
    var left := TableAmong(sessions, rooms, more);
    var right := TableAmong(sessions, rooms, users) + RoutesOf(sessions, MembersOf(rooms, r), u);
    forall id ensures (id in left <==> id in right) && (id in left ==> left[id] == right[id]) {
      TableHas(sessions, rooms, users, id);
      TableHas(sessions, rooms, more, id);
      if SendsOn(sessions, u, id) {
        OnlySender(sessions, nextMedia, more, u, id);
        RouteIs(sessions, rooms, u, r, id);
      } else {
        forall v ensures v in SendersAmong(sessions, more, id) <==> v in SendersAmong(sessions, users, id) {
        }
        SameSet(SendersAmong(sessions, more, id), SendersAmong(sessions, users, id));
      }
    }
    SameMap(left, right);
  }

  lemma OnlySender(sessions: Sessions, nextMedia: nat, users: set<UserId>, u: UserId, id: MediaId)
    requires IdsApart(sessions, nextMedia) && u in users && SendsOn(sessions, u, id)
    ensures SendersAmong(sessions, users, id) == {u}
  {
    forall v ensures v in SendersAmong(sessions, users, id) <==> v in {u} {
    }
    SameSet(SendersAmong(sessions, users, id), {u});
  }

  lemma RouteIs(sessions: Sessions, rooms: Rooms, u: UserId, r: RoomId, id: MediaId)
    requires RoomOf(sessions, u) == Some(r) && SendsOn(sessions, u, id)
    ensures id in RoutesOf(sessions, MembersOf(rooms, r), u)
    ensures RouteFor(sessions, rooms, u, id) == RoutesOf(sessions, MembersOf(rooms, r), u)[id]
  {
    hide RouteTo;
  }

  lemma NobodysTable(sessions: Sessions, rooms: Rooms)
    ensures TableAmong(sessions, rooms, {}) == map[]
  {
    forall id ensures id !in TableAmong(sessions, rooms, {}) {
      TableHas(sessions, rooms, {}, id);
    }
    Empty(TableAmong(sessions, rooms, {}));
  }

  /** The members of some rooms. */
  function MembersIn(rooms: Rooms, some: set<RoomId>): set<UserId> {
    set r, u | r in some && r in rooms && u in rooms[r].members :: u
  }

  lemma MembersOfMore(rooms: Rooms, some: set<RoomId>, r: RoomId)
    requires r in rooms
    ensures MembersIn(rooms, some + {r}) == MembersIn(rooms, some) + rooms[r].members
  {
    forall u ensures u in MembersIn(rooms, some + {r}) <==> u in MembersIn(rooms, some) + rooms[r].members {
      if u in rooms[r].members {
        assert r in some + {r};
      }
      if u in MembersIn(rooms, some) {
        var q :| q in some && q in rooms && u in rooms[q].members;
        assert q in some + {r};
      }
    }
    SameSet(MembersIn(rooms, some + {r}), MembersIn(rooms, some) + rooms[r].members);
  }

  lemma EveryMember(sessions: Sessions, rooms: Rooms)
    requires InStep(sessions, rooms)
    ensures MembersIn(rooms, rooms.Keys) == Placed(sessions)
    ensures MembersIn(rooms, {}) == {}
  {
    forall u ensures u in MembersIn(rooms, rooms.Keys) <==> u in Placed(sessions) {
      if u in Placed(sessions) {
        assert SessionFits(sessions, rooms, u);
        assert sessions[u].room.value in rooms.Keys;
      }
      if u in MembersIn(rooms, rooms.Keys) {
        var r :| r in rooms.Keys && r in rooms && u in rooms[r].members;
        assert RoomOf(sessions, u) == Some(r);
      }
    }
    SameSet(MembersIn(rooms, rooms.Keys), Placed(sessions));
    forall u ensures u !in MembersIn(rooms, {}) {
    }
    SameSet(MembersIn(rooms, {}), {});
  }

  lemma NotInOthers(sessions: Sessions, rooms: Rooms, some: set<RoomId>, r: RoomId, u: UserId)
    requires InStep(sessions, rooms) && r in rooms && r !in some && u in rooms[r].members
    ensures u !in MembersIn(rooms, some) && RoomOf(sessions, u) == Some(r) && sessions[u].tracks.Some?
  {
    assert RoomOf(sessions, u) == Some(r);
    assert SessionFits(sessions, rooms, u);
    forall q | q in some && q in rooms ensures u !in rooms[q].members {
      assert u in rooms[q].members ==> RoomOf(sessions, u) == Some(q);
    }
  }

  // ---- The audiences, room by room -----------------------------------------------------

  function AudiencesAmong(sessions: Sessions, rooms: Rooms, some: set<RoomId>): map<RoomId, seq<Audience>> {
    map r | r in rooms && r in some && AudiencesIn(sessions, rooms, r) != [] :: AudiencesIn(sessions, rooms, r)
  }

  lemma AudiencesNext(sessions: Sessions, rooms: Rooms, some: set<RoomId>, r: RoomId)
    requires r in rooms && r !in some
    ensures var list := AudiencesIn(sessions, rooms, r);
      AudiencesAmong(sessions, rooms, some + {r}) ==
      if list == [] then AudiencesAmong(sessions, rooms, some) else AudiencesAmong(sessions, rooms, some)[r := list]
  {
    hide AudiencesIn;
    var list, before := AudiencesIn(sessions, rooms, r), AudiencesAmong(sessions, rooms, some);
    forall q ensures q in AudiencesAmong(sessions, rooms, some + {r}) <==> q in before || (q == r && list != []) {
    }
    SameMap(AudiencesAmong(sessions, rooms, some + {r}), if list == [] then before else before[r := list]);
  }

  lemma AudiencesOfNoneAndAll(sessions: Sessions, rooms: Rooms)
    ensures AudiencesAmong(sessions, rooms, {}) == map[]
    ensures AudiencesAmong(sessions, rooms, rooms.Keys) == AllAudiences(sessions, rooms)
  {
    hide AudiencesIn;
    Empty(AudiencesAmong(sessions, rooms, {}));
    SameMap(AudiencesAmong(sessions, rooms, rooms.Keys), AllAudiences(sessions, rooms));
  }

  // ---- Telling, member by member -------------------------------------------------------

  /** Some users told what their room's new audiences are. */
  function ToldAmong(h: Hub, users: set<UserId>): Sessions {
    map u | u in h.sessions ::
      var s := h.sessions[u];
      if u in users && s.room.Some? then Told(s, AudiencesIn(h.sessions, h.rooms, s.room.value)) else s
  }

  lemma ToldNext(h: Hub, users: set<UserId>, u: UserId, r: RoomId)
    requires u !in users && RoomOf(h.sessions, u) == Some(r)
    ensures u in ToldAmong(h, users) && ToldAmong(h, users)[u] == h.sessions[u]
    ensures ToldAmong(h, users + {u}) == ToldAmong(h, users)[u := Told(h.sessions[u], AudiencesIn(h.sessions, h.rooms, r))]
  {
    hide AudiencesIn;
    SameMap(ToldAmong(h, users + {u}), ToldAmong(h, users)[u := Told(h.sessions[u], AudiencesIn(h.sessions, h.rooms, r))]);
  }

  lemma ToldNobody(h: Hub)
    ensures ToldAmong(h, {}) == h.sessions
  {
    hide AudiencesIn;
    SameMap(ToldAmong(h, {}), h.sessions);
  }

  lemma ToldEveryone(h: Hub)
    requires InStep(h.sessions, h.rooms)
    ensures ToldAmong(h, MembersIn(h.rooms, ChangedRooms(h))) == AllTold(h)
  {
    hide AudiencesIn, ChangedRooms;
    var users := MembersIn(h.rooms, ChangedRooms(h));
    forall u | u in h.sessions && h.sessions[u].room.Some?
      ensures u in users <==> h.sessions[u].room.value in ChangedRooms(h) && u in MembersOf(h.rooms, h.sessions[u].room.value)
    {
      if u in users {
        var r :| r in ChangedRooms(h) && r in h.rooms && u in h.rooms[r].members;
        assert RoomOf(h.sessions, u) == Some(r);
      }
    }
    SameMap(ToldAmong(h, users), AllTold(h));
  }
}
