/**
 Enrollment runs of invites, which may overlap. A try is used up before a run starts; with none
 left, whichever run ends last burns the invite.
 */
module InviteModel {
  import opened Collections

  type Code = int
  type RunId = int

  const INVITE_TRIES: nat := 3

  datatype Invite = Invite(failures: nat, expiresAt: nat)

  type InviteMap = map<Code, Invite>
  type Counts = map<Code, nat>

  // ---- What the database and the counters do -------------------------------------------

  predicate CanClaim(invites: InviteMap, code: Code, now: nat) {
    code in invites && invites[code].expiresAt > now && invites[code].failures < INVITE_TRIES
  }

  function ConsumeTry(invites: InviteMap, code: Code): InviteMap {
    if code in invites then invites[code := invites[code].(failures := invites[code].failures + 1)] else invites
  }

  predicate CanEnroll(invites: InviteMap, code: Code, now: nat) {
    code in invites && invites[code].expiresAt > now
  }

  predicate IsSpent(invites: InviteMap, code: Code) {
    code in invites && invites[code].failures >= INVITE_TRIES
  }

  function WithoutSpent(invites: InviteMap): InviteMap {
    map c | c in invites && invites[c].failures < INVITE_TRIES :: invites[c]
  }

  function CountOf(runs: Counts, code: Code): nat {
    if code in runs then runs[code] else 0
  }

  function StartRun(runs: Counts, code: Code): Counts {
    runs[code := CountOf(runs, code) + 1]
  }

  /** Whether no other run of the code is in flight, once one ends. */
  predicate IsLast(runs: Counts, code: Code) {
    CountOf(runs, code) <= 1
  }

  function FinishRun(runs: Counts, code: Code): Counts {
    if IsLast(runs, code) then runs - {code} else runs[code := runs[code] - 1]
  }

  // ---- Overlapping runs ----------------------------------------------------------------

  /** What has happened: the codes ever minted, the claims made on each, and who enrolled. */
  datatype Past = Past(minted: set<Code>, claims: Counts, enrolled: Counts)

  /** `since` is when each run claimed its invite. The run reads the clock just once, then. */
  datatype Server = Server(invites: InviteMap, runs: Counts, live: map<RunId, Code>, since: map<RunId, nat>, past: Past)

  const FRESH: Server := Server(map[], map[], map[], map[], Past({}, map[], map[]))

  datatype Move =
    | Mint(code: Code, expiresAt: nat)
    | Claim(run: RunId, code: Code, now: nat)
    | Enroll(run: RunId)                    // the exchange went well
    | End(run: RunId)                       // it ended, or was dropped halfway
    | Revoke(code: Code)                    // or expired and purged
    | Restart

  predicate Enabled(s: Server, move: Move) {
    match move
    case Mint(c, _) => c !in s.past.minted
    case Claim(r, _, _) => r !in s.live
    case Enroll(r) => r in s.live && r in s.since
    case End(r) => r in s.live
    case _ => true
  }

  function Next(s: Server, move: Move): Server
    requires Enabled(s, move)
  {
    match move
    case Mint(c, expiresAt) =>
      s.(invites := s.invites[c := Invite(0, expiresAt)], past := s.past.(minted := s.past.minted + {c}))
    case Claim(r, c, now) =>
      if !CanClaim(s.invites, c, now) then s
      else Server(ConsumeTry(s.invites, c), StartRun(s.runs, c), s.live[r := c], s.since[r := now],
                  s.past.(claims := StartRun(s.past.claims, c)))
    case Enroll(r) =>
      if !CanEnroll(s.invites, s.live[r], s.since[r]) then s
      else s.(invites := s.invites - {s.live[r]}, past := s.past.(enrolled := StartRun(s.past.enrolled, s.live[r])))
    case End(r) =>
      var c := s.live[r];
      s.(runs := FinishRun(s.runs, c), live := s.live - {r},
         invites := if IsLast(s.runs, c) && IsSpent(s.invites, c) then s.invites - {c} else s.invites)
    case Revoke(c) => s.(invites := s.invites - {c})
    case Restart => s.(invites := WithoutSpent(s.invites), runs := map[], live := map[])
  }

  // ---- What is kept --------------------------------------------------------------------

  ghost predicate Counted(runs: Counts, live: map<RunId, Code>, c: Code) {
    CountOf(runs, c) == |Having(live, c)| && (c in runs ==> runs[c] > 0)
  }

  ghost predicate CodeOk(s: Server, c: Code) {
    && Counted(s.runs, s.live, c)
    && CountOf(s.past.claims, c) <= INVITE_TRIES
    && CountOf(s.past.enrolled, c) <= 1
    && (c in s.invites ==>
          && c in s.past.minted && CountOf(s.past.enrolled, c) == 0
          && CountOf(s.past.claims, c) == s.invites[c].failures)
    && (c !in s.past.minted ==> CountOf(s.past.claims, c) == 0 && CountOf(s.past.enrolled, c) == 0)
    && (IsSpent(s.invites, c) ==> Having(s.live, c) != {})
  }

  ghost predicate ServerInv(s: Server) {
    forall c :: CodeOk(s, c)
  }

  lemma ClaimKeeps(s: Server, r: RunId, code: Code, now: nat, c: Code)
    requires CodeOk(s, c) && r !in s.live && CanClaim(s.invites, code, now)
    ensures CodeOk(Next(s, Claim(r, code, now)), c)
  {
    HavingWith(s.live, r, code, c);
    if c == code {
      assert r in Having(s.live[r := code], c);
    } else {
      SameHaving(s.live, s.live[r := code], c);
    }
  }

  lemma SameHaving(a: map<RunId, Code>, b: map<RunId, Code>, c: Code)
    requires forall r :: (r in a && a[r] == c) <==> (r in b && b[r] == c)
    ensures Having(a, c) == Having(b, c)
  {
    forall r ensures r in Having(a, c) <==> r in Having(b, c) {
    }
    SameSet(Having(a, c), Having(b, c));
  }

  lemma EndKeeps(s: Server, r: RunId, c: Code)
    requires CodeOk(s, c) && r in s.live && Counted(s.runs, s.live, s.live[r])
    ensures CodeOk(Next(s, End(r)), c)
  {
    var t := Next(s, End(r));
    HavingWithout(s.live, r, c);
    if c != s.live[r] {
      SameHaving(s.live, t.live, c);
    } else if !IsLast(s.runs, c) {
      assert |Having(t.live, c)| > 0;
    }
  }

  lemma RestartKeeps(s: Server, c: Code)
    requires CodeOk(s, c)
    ensures CodeOk(Next(s, Restart), c)
  {
    NoneHaving(Next(s, Restart).live, c);
  }

  lemma OtherMovesKeep(s: Server, move: Move, c: Code)
    requires CodeOk(s, c) && Enabled(s, move) && (move.Mint? || move.Enroll? || move.Revoke?)
    ensures CodeOk(Next(s, move), c)
  {
  }

  lemma NextKeeps(s: Server, move: Move)
    requires ServerInv(s) && Enabled(s, move)
    ensures ServerInv(Next(s, move))
  {
    hide CodeOk, CanClaim;
    var t := Next(s, move);
    forall c ensures CodeOk(t, c) {
      assert CodeOk(s, c);
      match move
      case Claim(r, code, now) =>
        if CanClaim(s.invites, code, now) {
          ClaimKeeps(s, r, code, now, c);
        }
      case End(r) =>
        CodeIsCounted(s, s.live[r]);
        EndKeeps(s, r, c);
      case Restart => RestartKeeps(s, c);
      case _ => OtherMovesKeep(s, move, c);
    }
  }

  lemma CodeIsCounted(s: Server, c: Code)
    requires ServerInv(s)
    ensures Counted(s.runs, s.live, c)
  {
    assert CodeOk(s, c);
  }

  predicate CanRun(s: Server, moves: seq<Move>)
    decreases |moves|
  {
    moves != [] ==> Enabled(s, moves[0]) && CanRun(Next(s, moves[0]), moves[1..])
  }

  function Run(s: Server, moves: seq<Move>): Server
    requires CanRun(s, moves)
    decreases |moves|
  {
    if moves == [] then s else Run(Next(s, moves[0]), moves[1..])
  }

  lemma {:induction false} RunsKeepInvites(s: Server, moves: seq<Move>)
    requires ServerInv(s) && CanRun(s, moves)
    ensures ServerInv(Run(s, moves))
    decreases |moves|
  {
    hide ServerInv, Next, Enabled;
    if moves != [] {
      NextKeeps(s, moves[0]);
      RunsKeepInvites(Next(s, moves[0]), moves[1..]);
    }
  }

  /** However the runs of an invite overlap, restarts included: no more than `INVITE_TRIES` claim
      it, at most one enrolls with it, the counter counts just those in flight, and while none is
      in flight it is gone or has tries left. */
  lemma InvitesAreBounded(moves: seq<Move>, c: Code)
    requires CanRun(FRESH, moves)
    ensures var s := Run(FRESH, moves);
      && CountOf(s.past.claims, c) <= INVITE_TRIES && CountOf(s.past.enrolled, c) <= 1
      && CountOf(s.runs, c) == |Having(s.live, c)|
      && (Having(s.live, c) == {} && c in s.invites ==> s.invites[c].failures < INVITE_TRIES)
  {
    forall d ensures CodeOk(FRESH, d) {
      NoneHaving(FRESH.live, d);
    }
    RunsKeepInvites(FRESH, moves);
    assert CodeOk(Run(FRESH, moves), c);
  }

  // ---- Until when, and who -------------------------------------------------------------

  ghost predicate MintedUntil(moves: seq<Move>, c: Code, expiresAt: nat) {
    exists i :: 0 <= i < |moves| && moves[i] == Mint(c, expiresAt)
  }

  lemma {:induction false} RunsJoin(s: Server, moves: seq<Move>, last: Move)
    requires CanRun(s, moves + [last])
    ensures CanRun(s, moves) && Enabled(Run(s, moves), last) && Run(s, moves + [last]) == Next(Run(s, moves), last)
    decreases |moves|
  {
    hide Next, Enabled;
    if moves == [] {
      assert moves + [last] == [last] && [last][1..] == [];
    } else {
      assert (moves + [last])[1..] == moves[1..] + [last];
      RunsJoin(Next(s, moves[0]), moves[1..], last);
    }
  }

  /** An invite is good until what it was minted with, whatever became of it since. */
  lemma {:induction false} ExpiryStays(moves: seq<Move>, c: Code)
    requires CanRun(FRESH, moves)
    ensures c in Run(FRESH, moves).invites ==> MintedUntil(moves, c, Run(FRESH, moves).invites[c].expiresAt)
    decreases |moves|
  {
    if moves != [] {
      var done, last := moves[..|moves| - 1], moves[|moves| - 1];
      assert moves == done + [last];
      RunsJoin(FRESH, done, last);
      ExpiryStays(done, c);
      if c in Run(FRESH, moves).invites {
        var expiresAt := Run(FRESH, moves).invites[c].expiresAt;
        if last == Mint(c, expiresAt) {
          assert moves[|done|] == Mint(c, expiresAt);
        } else {
          StepKeepsExpiry(Run(FRESH, done), last, c);
          var i :| 0 <= i < |done| && done[i] == Mint(c, expiresAt);
          assert moves[i] == Mint(c, expiresAt);
        }
      }
    }
  }

  lemma StepKeepsExpiry(s: Server, move: Move, c: Code)
    requires Enabled(s, move) && c in Next(s, move).invites
    ensures move == Mint(c, Next(s, move).invites[c].expiresAt)
      || (c in s.invites && Next(s, move).invites[c].expiresAt == s.invites[c].expiresAt)
  {
  }

  lemma {:induction false} MintedStays(s: Server, moves: seq<Move>, c: Code)
    requires CanRun(s, moves) && c in s.past.minted
    ensures forall i, expiresAt :: 0 <= i < |moves| ==> moves[i] != Mint(c, expiresAt)
    decreases |moves|
  {
    if moves != [] {
      MintedStays(Next(s, moves[0]), moves[1..], c);
      assert forall i :: 0 < i < |moves| ==> moves[i] == moves[1..][i - 1];
    }
  }

  /** A code is minted once. */
  lemma {:induction false} MintedOnce(s: Server, moves: seq<Move>, c: Code, i: nat, j: nat)
    requires CanRun(s, moves) && i < j < |moves| && moves[i].Mint? && moves[i].code == c
    ensures !(moves[j].Mint? && moves[j].code == c)
    decreases |moves|
  {
    hide Enabled;
    if i == 0 {
      MintedStays(Next(s, moves[0]), moves[1..], c);
      assert moves[j] == moves[1..][j - 1] && (moves[j].Mint? ==> moves[j] == Mint(moves[j].code, moves[j].expiresAt));
    } else {
      MintedOnce(Next(s, moves[0]), moves[1..], c, i - 1, j - 1);
    }
  }

  lemma UntilIsOne(moves: seq<Move>, c: Code, a: nat, b: nat)
    requires CanRun(FRESH, moves) && MintedUntil(moves, c, a) && MintedUntil(moves, c, b)
    ensures a == b
  {
    var i :| 0 <= i < |moves| && moves[i] == Mint(c, a);
    var j :| 0 <= j < |moves| && moves[j] == Mint(c, b);
    if i < j {
      MintedOnce(FRESH, moves, c, i, j);
    } else if j < i {
      MintedOnce(FRESH, moves, c, j, i);
    }
  }

  lemma InTimeIs(moves: seq<Move>, c: Code, now: nat)
    requires CanRun(FRESH, moves) && c in Run(FRESH, moves).invites
    ensures now < Run(FRESH, moves).invites[c].expiresAt <==> exists until :: MintedUntil(moves, c, until) && now < until
  {
    ExpiryStays(moves, c);
    var expiresAt := Run(FRESH, moves).invites[c].expiresAt;
    if until :| MintedUntil(moves, c, until) && now < until {
      UntilIsOne(moves, c, until, expiresAt);
    }
  }

  /** In any run: a code is claimed exactly while its invite is there, was claimed fewer than three
      times and has not reached the time it was minted until; a claim starts one run and uses up one
      try. Otherwise nothing happens. */
  lemma ClaimedExactly(moves: seq<Move>, run: RunId, c: Code, now: nat)
    requires CanRun(FRESH, moves) && run !in Run(FRESH, moves).live
    ensures var s := Run(FRESH, moves);
      var t := Next(s, Claim(run, c, now));
      && (run in t.live <==>
            c in s.invites && CountOf(s.past.claims, c) < 3 && exists until :: MintedUntil(moves, c, until) && now < until)
      && (run in t.live ==> t.live == s.live[run := c] && CountOf(t.past.claims, c) == CountOf(s.past.claims, c) + 1
                            && t.invites.Keys == s.invites.Keys && t.past.enrolled == s.past.enrolled)
      && (run !in t.live ==> t == s)
  {
    AllOk(moves);
    assert CodeOk(Run(FRESH, moves), c);
    var s := Run(FRESH, moves);
    if c in s.invites {
      InTimeIs(moves, c, now);
      SameSet(Next(s, Claim(run, c, now)).invites.Keys, s.invites.Keys);
    }
  }

  lemma AllOk(moves: seq<Move>)
    requires CanRun(FRESH, moves)
    ensures ServerInv(Run(FRESH, moves))
  {
    forall d ensures CodeOk(FRESH, d) {
      NoneHaving(FRESH.live, d);
    }
    RunsKeepInvites(FRESH, moves);
  }

  /** Each run claimed its invite in time. */
  ghost predicate ClaimedInTime(s: Server) {
    forall r :: r in s.live ==>
      && r in s.since && s.live[r] in s.past.minted
      && (s.live[r] in s.invites ==> s.since[r] < s.invites[s.live[r]].expiresAt)
  }

  lemma {:induction false} RunsClaimInTime(s: Server, moves: seq<Move>)
    requires ServerInv(s) && ClaimedInTime(s) && CanRun(s, moves)
    ensures ClaimedInTime(Run(s, moves))
    decreases |moves|
  {
    hide Next, Enabled, ServerInv, ClaimedInTime;
    if moves != [] {
      ClaimsInTime(s, moves[0]);
      NextKeeps(s, moves[0]);
      RunsClaimInTime(Next(s, moves[0]), moves[1..]);
    }
  }

  lemma ClaimsInTime(s: Server, move: Move)
    requires ServerInv(s) && ClaimedInTime(s) && Enabled(s, move)
    ensures ClaimedInTime(Next(s, move))
  {
    if move.Claim? {
      assert CodeOk(s, move.code);
    }
  }

  /** A run enrolls exactly while the invite it claimed is still there, even if that has expired since;
      and that takes the invite away. */
  lemma EnrolledExactly(moves: seq<Move>, run: RunId)
    requires CanRun(FRESH, moves) && run in Run(FRESH, moves).live
    ensures var s := Run(FRESH, moves);
      && Enabled(s, Enroll(run))
      && var t, c := Next(s, Enroll(run)), s.live[run];
      && (c in s.invites ==> t.invites == s.invites - {c} && CountOf(t.past.enrolled, c) == CountOf(s.past.enrolled, c) + 1)
      && (c !in s.invites ==> t == s)
  {
    AllOk([]);
    AllOk(moves);
    RunsClaimInTime(FRESH, moves);
  }

  /** An invite goes exactly when it is revoked, when a run of it enrolls in time, or with its tries:
      once three were claimed, with the end of the last run or the next start of the server. */
  lemma InvitesGoExactly(moves: seq<Move>, move: Move, c: Code)
    requires CanRun(FRESH, moves) && Enabled(Run(FRESH, moves), move) && c in Run(FRESH, moves).invites
    ensures var s := Run(FRESH, moves);
      c !in Next(s, move).invites <==>
        match move
        case Revoke(d) => d == c
        case Enroll(run) => s.live[run] == c
        case End(run) => s.live[run] == c && CountOf(s.past.claims, c) >= 3 && Having(s.live, c) == {run}
        case Restart => CountOf(s.past.claims, c) >= 3
        case _ => false
  {
    AllOk([]);
    AllOk(moves);
    RunsClaimInTime(FRESH, moves);
    var s := Run(FRESH, moves);
    assert CodeOk(s, c);
    if move.End? && s.live[move.run] == c {
      var runs := Having(s.live, c);
      assert move.run in runs;
      if |runs| == 1 {
        assert |runs - {move.run}| == 0;
        assert runs == {move.run};
      }
    }
  }
}

/** The counters of runs in flight, and an enrollment's steps under the hub's lock. */
module Enrollments {
  import opened Collections
  import opened InviteModel

  class InviteRuns {
    var runs: Counts

    constructor ()
      ensures runs == map[]
    {
      runs := map[];
    }

    method Start(code: Code)
      modifies this
      ensures runs == StartRun(old(runs), code)
    {
      if code !in runs {
        runs := runs[code := 0];
      }
      runs := runs[code := runs[code] + 1];
      assert runs == StartRun(old(runs), code);
    }

    /** Takes one off the count. `last` tells that none is left. */
    method Finish(code: Code) returns (last: bool)
      requires code in runs ==> runs[code] > 0
      modifies this
      ensures last == IsLast(old(runs), code)
      ensures runs == FinishRun(old(runs), code)
    {
      if code !in runs {
        assert runs - {code} == runs;
        return true;
      }
      runs := runs[code := runs[code] - 1];
      if runs[code] > 0 {
        return false;
      }
      runs := runs - {code};
      assert runs == old(runs) - {code};
      last := true;
    }
  }

  class Enrolling {
    var invites: InviteMap
    const inviteRuns: InviteRuns

    constructor ()
      ensures invites == map[] && fresh(inviteRuns) && inviteRuns.runs == map[]
    {
      invites := map[];
      inviteRuns := new InviteRuns();
    }

    /** A run may start on an invite that is there, in time and not used up, and starts by
        using up a try. */
    method ClaimTry(code: Code, now: nat) returns (claimed: bool)
      modifies this, inviteRuns
      ensures claimed == CanClaim(old(invites), code, now)
      ensures invites == if claimed then ConsumeTry(old(invites), code) else old(invites)
      ensures inviteRuns.runs == if claimed then StartRun(old(inviteRuns.runs), code) else old(inviteRuns.runs)
    {
      claimed := code in invites && invites[code].expiresAt > now && invites[code].failures < INVITE_TRIES;
      if claimed {
        invites := invites[code := invites[code].(failures := invites[code].failures + 1)];
        inviteRuns.Start(code);
      }
    }

    /** Consumes the invite, unless it is gone or had expired by `now`, when the run claimed it. */
    method Enroll(code: Code, now: nat) returns (enrolled: bool)
      modifies `invites
      ensures enrolled == CanEnroll(old(invites), code, now)
      ensures invites == if enrolled then old(invites) - {code} else old(invites)
    {
      if code !in invites || invites[code].expiresAt <= now {
        return false;
      }
      invites := invites - {code};
      enrolled := true;
    }

    /** Ends a run. The last one of an invite without tries left burns it. */
    method EndRun(code: Code)
      requires code in inviteRuns.runs ==> inviteRuns.runs[code] > 0
      modifies this, inviteRuns
      ensures inviteRuns.runs == FinishRun(old(inviteRuns.runs), code)
      ensures invites == if IsLast(old(inviteRuns.runs), code) && IsSpent(old(invites), code) then old(invites) - {code} else old(invites)
    {
      var last := inviteRuns.Finish(code);
      if !last {
        return;
      }
      if code in invites && invites[code].failures >= INVITE_TRIES {
        invites := invites - {code};
      }
    }

    /** Deletes invites without tries left, as when the server starts. */
    method DeleteSpent()
      modifies `invites
      ensures invites == WithoutSpent(old(invites))
    {
      invites := map c | c in invites && invites[c].failures < INVITE_TRIES :: invites[c];
    }
  }
}
