/**
 The newest epoch taken part in, per user and room: kept in memory, shared by clones, and saved
 to one file by any number of writers whose saves may overlap and fail.
 */
module FloorsFile {
  import opened Collections
  import opened KeyModel

  // ---- Floors in memory ----------------------------------------------------------------

  /** `at` with every floor of `more` raised in. */
  function Merge(at: Floors, more: Floors): Floors {
    map k | k in at.Keys + more.Keys ::
      if k !in more then at[k]
      else if k in at && more[k] < at[k] then at[k]
      else more[k]
  }

  /** The server's part of the file. */
  class ServersFile {
    var epochs: Floors

    constructor (kept: Floors)
      ensures epochs == kept
    {
      epochs := kept;
    }

    /** Writes floors back, under the file's lock: each is kept at the newer of the two. */
    method Update(at: Floors)
      modifies this
      ensures epochs == Merge(old(epochs), at)
    {
      var left := at.Keys;
      NothingMerged(epochs, at);
      while left != {}
        invariant left <= at.Keys
        invariant epochs == Merge(old(epochs), Part(at, at.Keys - left))
        decreases |left|
      {
        ghost var some: (UserId, RoomId) := Pick(left);
        assert some in left;
        var k :| k in left;
        MergeOneMore(old(epochs), at, at.Keys - left, k);
        if k !in epochs || epochs[k] < at[k] {
          epochs := epochs[k := at[k]];
        }
        assert at.Keys - left + {k} == at.Keys - (left - {k});
        left := left - {k};
      }
      WholePart(at);
      assert at.Keys - {} == at.Keys;
    }
  }

  function Part(at: Floors, keys: set<(UserId, RoomId)>): Floors {
    map k | k in at && k in keys :: at[k]
  }

  lemma NothingMerged(before: Floors, at: Floors)
    ensures Merge(before, Part(at, at.Keys - at.Keys)) == before
  {
    Empty(Part(at, at.Keys - at.Keys));
    SameMap(Merge(before, map[]), before);
  }

  lemma WholePart(at: Floors)
    ensures Part(at, at.Keys) == at
  {
    SameMap(Part(at, at.Keys), at);
  }

  lemma MergeOneMore(before: Floors, at: Floors, done: set<(UserId, RoomId)>, k: (UserId, RoomId))
    requires k in at && k !in done
    ensures var merged := Merge(before, Part(at, done));
      Merge(before, Part(at, done + {k})) == if k !in merged || merged[k] < at[k] then merged[k := at[k]] else merged
  {
    var merged, next := Merge(before, Part(at, done)), Merge(before, Part(at, done + {k}));
    SameMap(next, if k !in merged || merged[k] < at[k] then merged[k := at[k]] else merged);
  }

  /** One loaded set of floors. Clones share the object. */
  class EpochFloors {
    const file: Option<ServersFile>
    var at: Floors
    var unsaved: bool
    var finished: bool

    /** These floors as a cell that has no save under way. */
    ghost function View(): Cell
      reads this
    {
      Cell(at, unsaved, finished, [])
    }

    constructor Load(file: ServersFile)
      ensures this.file == Some(file) && at == file.epochs && !unsaved && !finished
      ensures Next(World(file.epochs, []), Move.Load) == World(file.epochs, [View()])
    {
      this.file, at, unsaved, finished := Some(file), file.epochs, false, false;
    }

    method Get(user: UserId, room: RoomId) returns (epoch: Option<Epoch>)
      ensures epoch == if (user, room) in at then Some(at[(user, room)]) else None
    {
      epoch := if (user, room) in at then Some(at[(user, room)]) else None;
    }

    method Raise(user: UserId, room: RoomId, epoch: Epoch)
      modifies `at, `unsaved
      ensures at == KeyModel.Raise(old(at), user, room, epoch)
      ensures unsaved == (old(unsaved) || at != old(at))
      ensures View() == RaisedCell(old(View()), user, room, epoch)
    {
      if (user, room) !in at || at[(user, room)] < epoch {
        at := at[(user, room) := epoch];
        unsaved := true;
        assert (user, room) in old(at) ==> at[(user, room)] != old(at)[(user, room)];
      }
    }

    /** What a save sets out to write, if anything. The lock is let go before writing. */
    method BeginSave() returns (writing: Option<Floors>)
      modifies `unsaved
      ensures writing == if file.Some? && old(unsaved) && !finished then Some(at) else None
      ensures unsaved == (old(unsaved) && writing.None?)
      ensures file.Some? ==> View().(writing := if writing.Some? then [writing.value] else []) == BegunCell(old(View()))
    {
      if file.None? || !unsaved || finished {
        return None;
      }
      unsaved := false;
      writing := Some(at);
    }

    /** Saves the floors; `writes` says whether the file takes the write. */
    method Save(writes: bool) returns (ok: bool)
      modifies `unsaved, if file.Some? then {file.value} else {}
      ensures ok == (writes || file.None? || !old(unsaved) || finished)
      ensures file.Some? && writes && old(unsaved) && !finished ==> file.value.epochs == Merge(old(file.value.epochs), at)
      ensures file.Some? && !(writes && old(unsaved) && !finished) ==> file.value.epochs == old(file.value.epochs)
      ensures unsaved == (old(unsaved) && !(ok && file.Some? && !finished))
      ensures file.Some? ==>
        var before, moves := World(old(file.value.epochs), [old(View())]), SaveMoves(old(View()), writes);
        CanRun(before, moves) && Run(before, moves) == World(file.value.epochs, [View()])
    {
      if file.Some? {
        SavingRuns(file.value.epochs, View(), writes);
      }
      var writing := BeginSave();
      if writing.None? {
        return true;
      }
      if writes {
        file.value.Update(writing.value);
      } else {
        unsaved := true;
      }
      ok := writes;
    }

    method SaveLast(writes: bool) returns (ok: bool)
      modifies `unsaved, `finished, if file.Some? then {file.value} else {}
      ensures finished
      ensures file.Some? && writes && old(unsaved) && !old(finished) ==> file.value.epochs == Merge(old(file.value.epochs), at)
      ensures file.Some? && !(writes && old(unsaved) && !old(finished)) ==> file.value.epochs == old(file.value.epochs)
      ensures file.Some? ==>
        var before, moves := World(old(file.value.epochs), [old(View())]), SaveMoves(old(View()), writes) + [Finish(0)];
        CanRun(before, moves) && Run(before, moves) == World(file.value.epochs, [View()])
    {
      if file.Some? {
        FinishingRuns(file.value.epochs, View(), writes);
      }
      ok := Save(writes);
      finished := true;
    }
  }

  // ---- Writers that overlap ------------------------------------------------------------

  /** One loaded set of floors, with the saves its clones have under way. */
  datatype Cell = Cell(at: Floors, unsaved: bool, finished: bool, writing: seq<Floors>)

  datatype World = World(disk: Floors, cells: seq<Cell>)

  datatype Move =
    | Load
    | Raised(cell: nat, user: UserId, room: RoomId, epoch: Epoch)
    | Begin(cell: nat)
    | Write(cell: nat, save: nat)
    | Fail(cell: nat, save: nat)
    | Finish(cell: nat)

  function Without<T>(s: seq<T>, i: nat): seq<T>
    requires i < |s|
  {
    s[..i] + s[i + 1..]
  }

  predicate Enabled(w: World, move: Move) {
    match move
    case Load => true
    case Raised(c, _, _, _) => c < |w.cells|
    case Begin(c) => c < |w.cells|
    case Write(c, i) => c < |w.cells| && i < |w.cells[c].writing|
    case Fail(c, i) => c < |w.cells| && i < |w.cells[c].writing|
    case Finish(c) => c < |w.cells|
  }

  function RaisedCell(cell: Cell, user: UserId, room: RoomId, epoch: Epoch): Cell {
    var at := Raise(cell.at, user, room, epoch);
    cell.(at := at, unsaved := cell.unsaved || at != cell.at)
  }

  function BegunCell(cell: Cell): Cell {
    if cell.unsaved && !cell.finished then cell.(unsaved := false, writing := cell.writing + [cell.at]) else cell
  }

  function Next(w: World, move: Move): World
    requires Enabled(w, move)
  {
    match move
    case Load => w.(cells := w.cells + [Cell(w.disk, false, false, [])])
    case Raised(c, user, room, epoch) => w.(cells := w.cells[c := RaisedCell(w.cells[c], user, room, epoch)])
    case Begin(c) => w.(cells := w.cells[c := BegunCell(w.cells[c])])
    case Write(c, i) =>
      World(Merge(w.disk, w.cells[c].writing[i]), w.cells[c := w.cells[c].(writing := Without(w.cells[c].writing, i))])
    case Fail(c, i) => w.(cells := w.cells[c := w.cells[c].(unsaved := true, writing := Without(w.cells[c].writing, i))])
    case Finish(c) => w.(cells := w.cells[c := w.cells[c].(finished := true)])
  }

  predicate CanRun(w: World, moves: seq<Move>)
    decreases |moves|
  {
    moves != [] ==> Enabled(w, moves[0]) && CanRun(Next(w, moves[0]), moves[1..])
  }

  function Run(w: World, moves: seq<Move>): World
    requires CanRun(w, moves)
    decreases |moves|
  {
    if moves == [] then w else Run(Next(w, moves[0]), moves[1..])
  }

  /** The moves of one whole save. */
  function SaveMoves(cell: Cell, writes: bool): seq<Move> {
    if cell.unsaved && !cell.finished then [Begin(0), if writes then Write(0, 0) else Fail(0, 0)] else [Begin(0)]
  }

  /** What a whole save does, on its own: the file, and then the floors in memory. */
  function Saved(disk: Floors, cell: Cell, writes: bool): World {
    if !cell.unsaved || cell.finished then World(disk, [cell])
    else if writes then World(Merge(disk, cell.at), [cell.(unsaved := false)])
    else World(disk, [cell])
  }

  lemma SavingRuns(disk: Floors, cell: Cell, writes: bool)
    requires cell.writing == []
    ensures CanRun(World(disk, [cell]), SaveMoves(cell, writes))
    ensures Run(World(disk, [cell]), SaveMoves(cell, writes)) == Saved(disk, cell, writes)
  {
    var start, begun := World(disk, [cell]), World(disk, [BegunCell(cell)]);
    OneMove(start, Begin(0));
    assert Next(start, Begin(0)) == begun;
    if cell.unsaved && !cell.finished {
      var ends := if writes then Write(0, 0) else Fail(0, 0);
      RunsJoin(start, [Begin(0)], ends);
      assert SaveMoves(cell, writes) == [Begin(0)] + [ends];
      assert begun.cells[0].writing == [cell.at] && Without([cell.at], 0) == [];
      assert Next(begun, ends) == Saved(disk, cell, writes);
    }
  }

  lemma OneMove(w: World, move: Move)
    requires Enabled(w, move)
    ensures CanRun(w, [move]) && Run(w, [move]) == Next(w, move)
  {
    assert [move][1..] == [];
  }

  lemma FinishingRuns(disk: Floors, cell: Cell, writes: bool)
    requires cell.writing == []
    ensures CanRun(World(disk, [cell]), SaveMoves(cell, writes) + [Finish(0)])
    ensures Run(World(disk, [cell]), SaveMoves(cell, writes) + [Finish(0)]) == Next(Saved(disk, cell, writes), Finish(0))
  {
    hide SaveMoves, Saved, Next;
    SavingRuns(disk, cell, writes);
    OneCell(disk, cell, writes);
    RunsJoin(World(disk, [cell]), SaveMoves(cell, writes), Finish(0));
  }

  lemma OneCell(disk: Floors, cell: Cell, writes: bool)
    ensures |Saved(disk, cell, writes).cells| == 1
  {
  }

  lemma {:induction false} RunsJoin(w: World, moves: seq<Move>, last: Move)
    requires CanRun(w, moves) && Enabled(Run(w, moves), last)
    ensures CanRun(w, moves + [last]) && Run(w, moves + [last]) == Next(Run(w, moves), last)
    decreases |moves|
  {
    hide Next;
    if moves == [] {
      assert [last][1..] == [];
      assert moves + [last] == [last];
    } else {
      assert (moves + [last])[1..] == moves[1..] + [last];
      RunsJoin(Next(w, moves[0]), moves[1..], last);
    }
  }

  ghost predicate AtLeast(high: Floors, low: Floors) {
    forall k :: k in low ==> k in high && low[k] <= high[k]
  }

  ghost predicate Holds(at: Floors, k: (UserId, RoomId), epoch: Epoch) {
    k in at && epoch <= at[k]
  }

  ghost predicate IsBeingSaved(cell: Cell, k: (UserId, RoomId)) {
    k in cell.at && exists i :: 0 <= i < |cell.writing| && Holds(cell.writing[i], k, cell.at[k])
  }

  /** No floor in memory is forgotten: it is marked unsaved, under way, or on disk. */
  ghost predicate CellOk(disk: Floors, cell: Cell) {
    cell.unsaved || forall k :: k in cell.at ==> Holds(disk, k, cell.at[k]) || IsBeingSaved(cell, k)
  }

  ghost predicate AllOk(w: World) {
    forall c :: 0 <= c < |w.cells| ==> CellOk(w.disk, w.cells[c])
  }

  lemma DiskRises(disk: Floors, higher: Floors, cell: Cell)
    requires CellOk(disk, cell) && AtLeast(higher, disk)
    ensures CellOk(higher, cell)
  {
    if !cell.unsaved {
      forall k | k in cell.at ensures Holds(higher, k, cell.at[k]) || IsBeingSaved(cell, k) {
        assert Holds(disk, k, cell.at[k]) || IsBeingSaved(cell, k);
      }
    }
  }

  lemma WriteKeeps(disk: Floors, cell: Cell, i: nat)
    requires CellOk(disk, cell) && i < |cell.writing|
    ensures CellOk(Merge(disk, cell.writing[i]), cell.(writing := Without(cell.writing, i)))
  {
    var after, left := Merge(disk, cell.writing[i]), cell.(writing := Without(cell.writing, i));
    if !cell.unsaved {
      forall k | k in cell.at ensures Holds(after, k, cell.at[k]) || IsBeingSaved(left, k) {
        if !Holds(disk, k, cell.at[k]) {
          assert IsBeingSaved(cell, k);
          var j :| 0 <= j < |cell.writing| && Holds(cell.writing[j], k, cell.at[k]);
          if j != i {
            assert left.writing[if j < i then j else j - 1] == cell.writing[j];
          }
        }
      }
    }
  }

  lemma BeginKeeps(disk: Floors, cell: Cell)
    requires CellOk(disk, cell)
    ensures CellOk(disk, BegunCell(cell))
  {
    var begun := BegunCell(cell);
    if begun != cell {
      forall k | k in begun.at ensures IsBeingSaved(begun, k) {
        assert begun.writing[|cell.writing|] == cell.at;
        assert Holds(begun.writing[|cell.writing|], k, begun.at[k]);
      }
    }
  }

  lemma NextKeeps(w: World, move: Move)
    requires AllOk(w) && Enabled(w, move)
    ensures AllOk(Next(w, move)) && AtLeast(Next(w, move).disk, w.disk)
  {
    match move
    case Load =>
      var cell := Cell(w.disk, false, false, []);
      assert CellOk(w.disk, cell) by {
        assert forall k :: k in w.disk ==> Holds(w.disk, k, w.disk[k]);
      }
    case Begin(c) => BeginKeeps(w.disk, w.cells[c]);
    case Write(c, i) =>
      WriteKeeps(w.disk, w.cells[c], i);
      forall d | 0 <= d < |w.cells| && d != c ensures CellOk(Next(w, move).disk, w.cells[d]) {
        DiskRises(w.disk, Next(w, move).disk, w.cells[d]);
      }
    case Fail(c, i) => assert CellOk(w.disk, w.cells[c].(unsaved := true, writing := Without(w.cells[c].writing, i)));
    case Finish(c) => FinishKeeps(w.disk, w.cells[c]);
    case Raised(c, user, room, epoch) => RaiseKeeps(w.disk, w.cells[c], user, room, epoch);
  }

  lemma FinishKeeps(disk: Floors, cell: Cell)
    requires CellOk(disk, cell)
    ensures CellOk(disk, cell.(finished := true))
  {
    if !cell.unsaved {
      forall k | k in cell.at ensures Holds(disk, k, cell.at[k]) || IsBeingSaved(cell.(finished := true), k) {
        assert IsBeingSaved(cell.(finished := true), k) == IsBeingSaved(cell, k);
      }
    }
  }

  lemma RaiseKeeps(disk: Floors, cell: Cell, user: UserId, room: RoomId, epoch: Epoch)
    requires CellOk(disk, cell)
    ensures CellOk(disk, RaisedCell(cell, user, room, epoch))
  {
    var raised := RaisedCell(cell, user, room, epoch);
    if !raised.unsaved {
      assert raised == cell;
    }
  }

  /** Along any run of raises, overlapping saves and failed ones, floors on disk never fall, and
      no floor in memory is forgotten. */
  lemma {:induction false} RunsKeepFloors(w: World, moves: seq<Move>)
    requires AllOk(w) && CanRun(w, moves)
    ensures AllOk(Run(w, moves)) && AtLeast(Run(w, moves).disk, w.disk)
    decreases |moves|
  {
    if moves != [] {
      NextKeeps(w, moves[0]);
      RunsKeepFloors(Next(w, moves[0]), moves[1..]);
    }
  }

  /** So whatever ran before, floors that are all saved come back from the file. */
  lemma SavedFloorsComeBack(w: World, moves: seq<Move>, more: seq<Move>, c: nat)
    requires AllOk(w) && CanRun(w, moves) && CanRun(Run(w, moves), more)
    requires var now := Run(w, moves);
      c < |now.cells| && !now.cells[c].unsaved && now.cells[c].writing == []
    ensures var now := Run(w, moves);
            var later := Next(Run(now, more), Load);
      AtLeast(later.cells[|later.cells| - 1].at, now.cells[c].at)
  {
    var now := Run(w, moves);
    RunsKeepFloors(w, moves);
    RunsKeepFloors(now, more);
    assert CellOk(now.disk, now.cells[c]);
    forall k | k in now.cells[c].at ensures Holds(now.disk, k, now.cells[c].at[k]) {
      assert !IsBeingSaved(now.cells[c], k);
    }
  }

  // ---- Where floors come from ----------------------------------------------------------

  /** `epoch` was raised for this user and room, or was in the file from the start. */
  ghost predicate IsKnown(start: Floors, moves: seq<Move>, k: (UserId, RoomId), epoch: Epoch) {
    || (k in start && start[k] == epoch)
    || exists i :: 0 <= i < |moves| && IsRaise(moves[i], k, epoch)
  }

  ghost predicate IsRaise(move: Move, k: (UserId, RoomId), epoch: Epoch) {
    move.Raised? && (move.user, move.room) == k && move.epoch == epoch
  }

  ghost predicate AllKnown(start: Floors, moves: seq<Move>, at: Floors) {
    forall k :: k in at ==> IsKnown(start, moves, k, at[k])
  }

  ghost predicate CellKnown(start: Floors, moves: seq<Move>, cell: Cell) {
    AllKnown(start, moves, cell.at) && forall i :: 0 <= i < |cell.writing| ==> AllKnown(start, moves, cell.writing[i])
  }

  ghost predicate WorldKnown(start: Floors, moves: seq<Move>, w: World) {
    AllKnown(start, moves, w.disk) && forall c :: 0 <= c < |w.cells| ==> CellKnown(start, moves, w.cells[c])
  }

  lemma KnownLater(start: Floors, moves: seq<Move>, move: Move, w: World)
    requires WorldKnown(start, moves, w)
    ensures WorldKnown(start, moves + [move], w)
  {
    forall k, epoch | IsKnown(start, moves, k, epoch) ensures IsKnown(start, moves + [move], k, epoch) {
      if i :| 0 <= i < |moves| && IsRaise(moves[i], k, epoch) {
        assert IsRaise((moves + [move])[i], k, epoch);
      }
    }
  }

  lemma NextIsKnown(start: Floors, moves: seq<Move>, w: World, move: Move)
    requires Enabled(w, move) && WorldKnown(start, moves, w)
    requires move in moves
    ensures WorldKnown(start, moves, Next(w, move))
  {
    hide IsKnown;
    match move
    case Raised(c, user, room, epoch) =>
      var i :| 0 <= i < |moves| && moves[i] == move;
      RaiseIsKnown(start, moves, i);
    case _ =>
  }

  lemma RaiseIsKnown(start: Floors, moves: seq<Move>, i: nat)
    requires i < |moves| && moves[i].Raised?
    ensures IsKnown(start, moves, (moves[i].user, moves[i].room), moves[i].epoch)
  {
    assert IsRaise(moves[i], (moves[i].user, moves[i].room), moves[i].epoch);
  }

  lemma {:induction false} RunIsKnown(start: Floors, done: seq<Move>, w: World, moves: seq<Move>)
    requires WorldKnown(start, done, w) && CanRun(w, moves)
    ensures WorldKnown(start, done + moves, Run(w, moves))
    decreases |moves|
  {
    hide Next, Enabled, WorldKnown;
    if moves == [] {
      assert done + moves == done;
    } else {
      KnownLater(start, done, moves[0], w);
      assert moves[0] == (done + [moves[0]])[|done|];
      NextIsKnown(start, done + [moves[0]], w, moves[0]);
      RunIsKnown(start, done + [moves[0]], Next(w, moves[0]), moves[1..]);
      assert done + [moves[0]] + moves[1..] == done + moves;
    }
  }

  /** Whatever saves overlap or fail, no floor is made up: each one in the file or in memory was raised
      to just that epoch for that user and room, or was there from the start. */
  lemma FloorsWereRaised(start: Floors, moves: seq<Move>, c: nat, k: (UserId, RoomId))
    requires CanRun(World(start, []), moves)
    ensures var w := Run(World(start, []), moves);
      && (k in w.disk ==> IsKnown(start, moves, k, w.disk[k]))
      && (c < |w.cells| && k in w.cells[c].at ==> IsKnown(start, moves, k, w.cells[c].at[k]))
  {
    assert AllKnown(start, [], start);
    RunIsKnown(start, [], World(start, []), moves);
    assert [] + moves == moves;
  }

  /** Once finished, with no save under way, floors are never written any more: not one save begins. */
  lemma {:induction false} FinishedStaysUnwritten(w: World, moves: seq<Move>, c: nat)
    requires CanRun(w, moves) && c < |w.cells| && w.cells[c].finished && w.cells[c].writing == []
    ensures var after := Run(w, moves);
      c < |after.cells| && after.cells[c].finished && after.cells[c].writing == []
    decreases |moves|
  {
    if moves != [] {
      FinishedStaysUnwritten(Next(w, moves[0]), moves[1..], c);
    }
  }
}
