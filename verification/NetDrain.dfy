/** Deliveries come to an end: with nobody coming or going, everything sent arrives. */
module NetDrain {
  import opened Collections
  import opened KeyModel
  import opened KeyRuns
  import opened NetModel
  import opened NetRuns
  import opened NetMesh
  import opened NetPrompt

  predicate IsDelivery(move: Move) {
    move.Accept? || move.Deliver? || move.Settle? || move.PutOut?
  }

  // ---- How much there is still to deliver ----------------------------------------------

  /** A request can become a message to each member it wraps for. */
  function RequestWeight(members: Members, p: Publish): nat {
    1 + |p.wrapped.Keys * members.Keys|
  }

  function OutboxWeight(members: Members, requests: seq<Publish>): nat {
    if requests == [] then 0 else RequestWeight(members, requests[0]) + OutboxWeight(members, requests[1..])
  }

  /** A sender key is the end of it. Anything else can lead to two requests. */
  function OpWeight(members: Members, op: Op): nat {
    if op.KeyFrom? then 1 else 3 + 2 * |members|
  }

  function InboxWeight(members: Members, inbox: seq<Op>): nat {
    if inbox == [] then 0 else OpWeight(members, inbox[0]) + InboxWeight(members, inbox[1..])
  }

  function LinkWeight(members: Members, l: Link): nat {
    InboxWeight(members, l.inbox) + OutboxWeight(members, l.outbox) + l.kicks
    + if l.answer.Some? then OpWeight(members, l.answer.value) else 0
  }

  function Weights(members: Members, links: map<UserId, Link>): map<int, nat> {
    map u | u in links :: LinkWeight(members, links[u])
  }

  function Outstanding(n: Net): nat {
    Total(Weights(n.members, n.links))
  }

  // ---- Each delivery leaves less -------------------------------------------------------

  lemma SendsFew(k: Keys, step: Step)
    ensures |Apply(k, step).1| <= 2 && (step.op.KeyFrom? ==> Apply(k, step).1 == [])
  {
    hide PeersChanged, CatchUp, KeyModel.Place, ReapplyPeers, SetPresence, SenderKey, RecvKey, Tick;
  }

  lemma FewWeigh(members: Members, requests: seq<Publish>)
    requires |requests| <= 2
    ensures OutboxWeight(members, requests) <= 2 + 2 * |members|
  {
    hide RequestWeight;
    if requests != [] {
      OneWeighs(members, requests[0]);
      if |requests| == 1 {
        assert requests[1..] == [];
      } else {
        OneWeighs(members, requests[1]);
        assert requests[1..][0] == requests[1] && requests[1..][1..] == [];
      }
    }
  }

  lemma OneWeighs(members: Members, p: Publish)
    ensures RequestWeight(members, p) <= 1 + |members|
  {
    Fewer(p.wrapped.Keys * members.Keys, members.Keys);
  }

  lemma {:induction false} OutboxJoins(members: Members, a: seq<Publish>, b: seq<Publish>)
    ensures OutboxWeight(members, a + b) == OutboxWeight(members, a) + OutboxWeight(members, b)
    decreases |a|
  {
    if a == [] {
      assert a + b == b;
    } else {
      assert (a + b)[1..] == a[1..] + b;
      OutboxJoins(members, a[1..], b);
    }
  }

  lemma {:induction false} InboxJoins(members: Members, inbox: seq<Op>, op: Op)
    ensures InboxWeight(members, inbox + [op]) == InboxWeight(members, inbox) + OpWeight(members, op)
    decreases |inbox|
  {
    if inbox != [] {
      assert (inbox + [op])[1..] == inbox[1..] + [op];
      InboxJoins(members, inbox[1..], op);
    }
  }

  /** Taking something in leads to less than it weighs. */
  lemma TakingLightens(w: World, members: Members, l: Link, op: Op)
    ensures OutboxWeight(members, Take(w, l, op).outbox) < OutboxWeight(members, l.outbox) + OpWeight(members, op)
  {
    hide Apply, OutboxWeight;
    var requests := Apply(l.keys, Step(op, w.now, w.unix)).1;
    SendsFew(l.keys, Step(op, w.now, w.unix));
    FewWeigh(members, requests);
    OutboxJoins(members, l.outbox, requests);
    if op.KeyFrom? {
      assert l.outbox + requests == l.outbox;
    }
  }

  lemma ReplacingLightens(n: Net, u: UserId, l: Link)
    requires u in n.links && LinkWeight(n.members, l) < LinkWeight(n.members, n.links[u])
    ensures Outstanding(n.(links := n.links[u := l])) < Outstanding(n)
  {
    var after := n.(links := n.links[u := l]);
    SameMap(Weights(n.members, after.links), Weights(n.members, n.links)[u := LinkWeight(n.members, l)]);
    TotalWith(Weights(n.members, n.links), u, LinkWeight(n.members, l));
  }

  /** One more for each key in `some`. */
  function Raised(m: map<int, nat>, some: set<int>): map<int, nat> {
    map k | k in m :: if k in some then m[k] + 1 else m[k]
  }

  lemma {:induction false} RaisedTotal(m: map<int, nat>, some: set<int>)
    ensures Total(Raised(m, some)) <= Total(m) + |some|
    decreases |m|
  {
    if m == map[] {
      Empty(Raised(m, some));
    } else {
      var k := Min(m.Keys);
      TotalWithout(Raised(m, some), k);
      Smaller(m, k);
      SameMap(Raised(m, some) - {k}, Raised(m - {k}, some - {k}));
      RaisedTotal(m - {k}, some - {k});
    }
  }

  /** Handing a request out makes a message for each member it wraps for, and no more. */
  lemma AcceptingLightens(n: Net, u: UserId)
    requires u in n.links && n.links[u].outbox != []
    ensures AcceptNext(n, u).members == n.members && Outstanding(AcceptNext(n, u)) < Outstanding(n)
  {
    hide InboxWeight, OpWeight;
    var p, l := n.links[u].outbox[0], n.links[u].(outbox := n.links[u].outbox[1..]);
    var sent := n.(links := n.links[u := l]);
    if Accepted(n, u, p) {
      TakenOut(n, u, l);
      HandingWeighs(n.members, sent.links, u, p);
      RaisedTotal(Weights(n.members, sent.links), p.wrapped.Keys);
      SameSet(p.wrapped.Keys * n.members.Keys, p.wrapped.Keys);
    } else {
      ReplacingLightens(n, u, l);
    }
  }

  lemma TakenOut(n: Net, u: UserId, l: Link)
    requires u in n.links && n.links[u].outbox != [] && l == n.links[u].(outbox := n.links[u].outbox[1..])
    ensures Outstanding(n.(links := n.links[u := l])) + RequestWeight(n.members, n.links[u].outbox[0]) == Outstanding(n)
  {
    hide InboxWeight, OpWeight, RequestWeight;
    var after := n.(links := n.links[u := l]);
    SameMap(Weights(n.members, after.links), Weights(n.members, n.links)[u := LinkWeight(n.members, l)]);
    TotalWith(Weights(n.members, n.links), u, LinkWeight(n.members, l));
  }

  lemma HandingWeighs(members: Members, links: map<UserId, Link>, sender: UserId, p: Publish)
    ensures Weights(members, HandOut(links, sender, p)) == Raised(Weights(members, links), p.wrapped.Keys)
  {
    hide InboxWeight, OutboxWeight;
    var after := HandOut(links, sender, p);
    forall u | u in links
      ensures LinkWeight(members, after[u]) == LinkWeight(members, links[u]) + if u in p.wrapped then 1 else 0 {
      if u in p.wrapped {
        InboxJoins(members, links[u].inbox, KeyFrom(sender, p.epoch, p.wrapped[u]));
      }
    }
    SameMap(Weights(members, after), Raised(Weights(members, links), p.wrapped.Keys));
  }

  lemma DeliveryLightens(w: World, n: Net, move: Move)
    requires IsDelivery(move) && Enabled(w, n, move)
    ensures Next(w, n, move).members == n.members && Outstanding(Next(w, n, move)) < Outstanding(n)
  {
    hide Outstanding, OutboxWeight, OpWeight, Apply;
    match move
    case Accept(u) => AcceptingLightens(n, u);
    case Deliver(u) =>
      TakingLightens(w, n.members, n.links[u], n.links[u].inbox[0]);
      ReplacingLightens(n, u, DeliverNext(w, n.links[u]));
    case Settle(u) =>
      TakingLightens(w, n.members, n.links[u], n.links[u].answer.value);
      ReplacingLightens(n, u, SettleAnswer(w, n.links[u]));
    case PutOut(u) =>
      KickLightens(w, n.members, n.links[u]);
      ReplacingLightens(n, u, ActOnKick(w, n.links[u]));
  }

  lemma KickLightens(w: World, members: Members, l: Link)
    requires l.kicks > 0
    ensures LinkWeight(members, ActOnKick(w, l)) < LinkWeight(members, l)
  {
    hide InboxWeight, OutboxWeight, OpWeight;
    SendsNone(l.keys, Step(TO_LOBBY, w.now, w.unix));
    assert l.outbox + [] == l.outbox;
  }

  lemma SendsNone(k: Keys, step: Step)
    requires step.op == TO_LOBBY
    ensures Apply(k, step).1 == []
  {
    hide KeyModel.Place;
  }

  // ---- So it ends ----------------------------------------------------------------------

  /** Deliveries in a row are no more than what is outstanding, and leave the members alone. */
  lemma {:induction false} DeliveriesEnd(w: World, n: Net, moves: seq<Move>)
    requires CanRun(w, n, moves) && forall i :: 0 <= i < |moves| ==> IsDelivery(moves[i])
    ensures |moves| + Outstanding(RunNet(w, n, moves)) <= Outstanding(n)
    ensures RunNet(w, n, moves).members == n.members
    decreases |moves|
  {
    hide Next, Outstanding, Enabled;
    if moves != [] {
      DeliveryLightens(w, n, moves[0]);
      DeliveriesEnd(w, Next(w, n, moves[0]), moves[1..]);
    }
  }

  /** Nothing can be delivered: all that is left are sender keys for clients whose early keys
      are full. */
  ghost predicate IsClogged(n: Net) {
    && !AtRest(n)
    && (forall u :: u in n.links ==> n.links[u].outbox == [] && n.links[u].answer.None? && n.links[u].kicks == 0)
    && (forall u :: u in n.links && n.links[u].inbox != [] ==> !HasRoomForEarly(n.links[u].keys, n.links[u].inbox[0]))
  }

  /** From any state, delivering alone brings the room to rest, unless early keys fill up. */
  lemma {:induction false} EverythingArrives(w: World, n: Net) returns (moves: seq<Move>)
    ensures CanRun(w, n, moves) && forall i :: 0 <= i < |moves| ==> IsDelivery(moves[i])
    ensures RunNet(w, n, moves).members == n.members
    ensures AtRest(RunNet(w, n, moves)) || IsClogged(RunNet(w, n, moves))
    decreases Outstanding(n)
  {
    hide Next, Outstanding;
    if move: Move :| IsDelivery(move) && Enabled(w, n, move) {
      DeliveryLightens(w, n, move);
      var rest := EverythingArrives(w, Next(w, n, move));
      moves := [move] + rest;
      assert moves[1..] == rest;
    } else {
      moves := [];
      NothingToDeliver(w, n);
    }
  }

  lemma NothingToDeliver(w: World, n: Net)
    requires forall move: Move :: !(IsDelivery(move) && Enabled(w, n, move))
    ensures AtRest(n) || IsClogged(n)
  {
    forall u | u in n.links
      ensures n.links[u].outbox == [] && n.links[u].answer.None? && n.links[u].kicks == 0
      ensures n.links[u].inbox != [] ==> !HasRoomForEarly(n.links[u].keys, n.links[u].inbox[0]) {
      assert IsDelivery(Accept(u)) && IsDelivery(Settle(u)) && IsDelivery(Deliver(u)) && IsDelivery(PutOut(u));
    }
  }

  lemma {:induction false} RunsJoin(w: World, n: Net, first: seq<Move>, second: seq<Move>)
    requires CanRun(w, n, first) && CanRun(w, RunNet(w, n, first), second)
    ensures CanRun(w, n, first + second) && RunNet(w, n, first + second) == RunNet(w, RunNet(w, n, first), second)
    decreases |first|
  {
    hide Next, Enabled;
    if first == [] {
      assert first + second == second;
    } else {
      assert (first + second)[1..] == first[1..] + second;
      RunsJoin(w, Next(w, n, first[0]), first[1..], second);
    }
  }

  /** Of the members, just those who listen hear just those who speak. */
  ghost predicate AllHeardRight(n: Net) {
    forall a, b, id :: a in n.members && b in n.members && a != b && id in TrackIds(n.members[a]) ==>
      (Hears(n, b, a, id) <==> Speaks(n, a) && Listens(n, b))
  }

  /** Every member receives every track of every other member with the key it is sent with. */
  ghost predicate AllHear(n: Net) {
    forall a, b, id :: a in n.members && b in n.members && a != b && id in TrackIds(n.members[a]) ==> Hears(n, b, a, id)
  }

  lemma RestIsHeard(w: World, start: Net, moves: seq<Move>)
    requires Starts(w, start) && CanRun(w, start, moves) && AtRest(RunNet(w, start, moves))
    ensures AllHeardRight(RunNet(w, start, moves))
  {
    hide Starts, CanRun, RunNet, AtRest, Hears, Speaks, Listens, TrackIds;
    var n := RunNet(w, start, moves);
    forall a, b, id | a in n.members && b in n.members && a != b && id in TrackIds(n.members[a])
      ensures Hears(n, b, a, id) <==> Speaks(n, a) && Listens(n, b) {
      HeardExactly(w, start, moves, a, b, id);
    }
  }

  ghost predicate AllPrompt(w: World, start: Net, moves: seq<Move>)
    requires CanRun(w, start, moves)
  {
    forall u :: u in start.links ==> IsPromptRun(w, start, moves, u)
  }

  /** However deliveries are ordered: once nobody comes or goes any more, a run of deliveries that
      can't go on was no longer than what was outstanding, and just those who listen hear just
      those who speak, unless it stopped at sender keys for full clients. */
  lemma EveryDeliveryArrives(w: World, start: Net, moves: seq<Move>, more: seq<Move>)
    requires Starts(w, start) && CanRun(w, start, moves) && CanRun(w, RunNet(w, start, moves), more)
    requires forall i :: 0 <= i < |more| ==> IsDelivery(more[i])
    requires forall move: Move :: !(IsDelivery(move) && Enabled(w, RunNet(w, RunNet(w, start, moves), more), move))
    ensures var n := RunNet(w, start, moves);
            var t := RunNet(w, n, more);
      |more| <= Outstanding(n) && t.members == n.members
      && (IsClogged(t) || (AllHeardRight(t) && (AllPrompt(w, start, moves) ==> AllHear(t))))
  {
    hide Outstanding, AtRest, Starts, CanRun, RunNet, Hears, IsClogged, Enabled, AllPrompt, AllHear;
    var n := RunNet(w, start, moves);
    DeliveriesEnd(w, n, more);
    NothingToDeliver(w, RunNet(w, n, more));
    RunsJoin(w, start, moves, more);
    if AtRest(RunNet(w, n, more)) {
      RestIsHeard(w, start, moves + more);
      if AllPrompt(w, start, moves) {
        PromptIsHeard(w, start, moves, more);
      }
    }
  }

  /** And there is such a run of deliveries from wherever the run has got to. */
  lemma KeysArriveInTheEnd(w: World, start: Net, moves: seq<Move>) returns (more: seq<Move>)
    requires Starts(w, start) && CanRun(w, start, moves)
    ensures var n := RunNet(w, start, moves);
      && |more| <= Outstanding(n) && (forall i :: 0 <= i < |more| ==> IsDelivery(more[i]))
      && CanRun(w, n, more)
      && var t := RunNet(w, n, more);
         t.members == n.members && (IsClogged(t) || (AllHeardRight(t) && (AllPrompt(w, start, moves) ==> AllHear(t))))
  {
    hide Outstanding, AtRest, Starts, CanRun, RunNet, Hears, IsClogged, AllPrompt, AllHear;
    var n := RunNet(w, start, moves);
    more := EverythingArrives(w, n);
    DeliveriesEnd(w, n, more);
    RunsJoin(w, start, moves, more);
    if AtRest(RunNet(w, n, more)) {
      RestIsHeard(w, start, moves + more);
      if AllPrompt(w, start, moves) {
        PromptIsHeard(w, start, moves, more);
      }
    }
  }

  lemma PromptIsHeard(w: World, start: Net, moves: seq<Move>, more: seq<Move>)
    requires Starts(w, start) && CanRun(w, start, moves) && CanRun(w, RunNet(w, start, moves), more) && AllPrompt(w, start, moves)
    requires AtRest(RunNet(w, RunNet(w, start, moves), more)) && forall i :: 0 <= i < |more| ==> IsDelivery(more[i])
    ensures AllHear(RunNet(w, RunNet(w, start, moves), more))
  {
    hide Outstanding, AtRest, Starts, CanRun, RunNet, Hears, IsPromptRun, TrackIds;
    var t := RunNet(w, RunNet(w, start, moves), more);
    RunsJoin(w, start, moves, more);
    forall a, b, id | a in t.members && b in t.members && a != b && id in TrackIds(t.members[a]) ensures Hears(t, b, a, id) {
      MembersAreLinked(w, start, moves + more, a);
      MembersAreLinked(w, start, moves + more, b);
      PromptJoin(w, start, moves, more, a);
      PromptJoin(w, start, moves, more, b);
      EveryoneHearsEveryone(w, start, moves + more, a, b, id);
    }
  }

  lemma MembersAreLinked(w: World, start: Net, moves: seq<Move>, u: UserId)
    requires Starts(w, start) && CanRun(w, start, moves) && u in RunNet(w, start, moves).members
    ensures u in start.links
  {
    hide LinkOk, Conveyed, Honest, CanRun, RunNet, StartsAs;
    StartOk(w, start);
    RunsKeepNet(w, start, moves);
  }

  /** Deliveries let nobody in and refuse nothing. */
  lemma {:induction false} PromptJoin(w: World, n: Net, moves: seq<Move>, more: seq<Move>, u: UserId)
    requires CanRun(w, n, moves) && CanRun(w, RunNet(w, n, moves), more) && IsPromptRun(w, n, moves, u)
    requires forall i :: 0 <= i < |more| ==> IsDelivery(more[i])
    ensures CanRun(w, n, moves + more) && IsPromptRun(w, n, moves + more, u)
    decreases |moves| + |more|
  {
    hide Next, Enabled;
    RunsJoin(w, n, moves, more);
    if moves != [] {
      assert (moves + more)[1..] == moves[1..] + more;
      PromptJoin(w, Next(w, n, moves[0]), moves[1..], more, u);
    } else if more != [] {
      assert moves + more == more;
      PromptJoin(w, Next(w, n, more[0]), [], more[1..], u);
      assert [] + more[1..] == more[1..];
    }
  }
}
