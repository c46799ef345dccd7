/**
 Ingestion of native log pages into the evidence index (`EvidenceIndex.sync`), run by any
 number of racing callers. Page validation, the compare-and-swap on the whole status row and
 the uniqueness of (source, frame_start) together keep the stored frames a confirmed prefix.
 One source is modelled; every table is keyed by source, so sources do not interact.
 */
module EvidenceSync {
  import opened Options
  import opened Utf8
  import opened EvidenceSearch

  const MAX_FRAME_BYTES: nat := 64 * 1024
  const MAX_PAGE_FRAMES: nat := 128
  const MAX_INTEGER: nat := 0x7FFF_FFFF_FFFF_FFFF

  datatype Outcome = Complete | Unavailable | LegacyUnknown

  /**
   One frame of a page, as untrusted as the executor that sent it. `shaped` stands for the
   checks on field names, capture time, legacy metadata and metadata size.
   */
  datatype Frame = Frame(rawStart: int, rawEnd: int, first: int, last: int,
                         control: bool, outcome: Option<Outcome>, shaped: bool)

  datatype Page = Page(confirmed: bool, atAvailableEnd: bool, frames: seq<Frame>,
                       nextAfterFrame: Option<int>, outcome: Option<Outcome>)

  /** The `sources` row that `_commit_frame` compares whole. */
  datatype Status = Status(afterFrame: Option<int>, rawEnd: int, compressedEnd: int, outcome: Option<Outcome>,
                           atAvailableEnd: bool, error: Option<string>)

  const FRESH := Status(None, 0, 0, None, false, None)

  /** Where a status says the confirmed prefix ends. */
  datatype Position = Position(rawEnd: int, compressedEnd: int, afterFrame: Option<int>, outcome: Option<Outcome>)

  const ORIGIN := Position(0, 0, None, None)

  function PositionOf(s: Status): Position {
    Position(s.rawEnd, s.compressedEnd, s.afterFrame, s.outcome)
  }

  function After(frame: Frame): Position {
    Position(frame.rawEnd, frame.last, Some(frame.first), frame.outcome)
  }

  // ---- page validation ----

  predicate IsInteger(v: int) {
    0 <= v <= MAX_INTEGER
  }

  /** The frame continues the prefix that ends at `p`. */
  predicate Follows(p: Position, f: Frame) {
    && f.shaped && IsInteger(f.rawStart) && IsInteger(f.rawEnd) && IsInteger(f.first) && IsInteger(f.last)
    && p.outcome.None?
    && f.rawStart == p.rawEnd && f.rawStart <= f.rawEnd <= f.rawStart + MAX_FRAME_BYTES
    && f.first == p.compressedEnd && f.first < f.last
    && (f.outcome.Some? ==> f.control && f.rawStart == f.rawEnd)
  }

  function End(p: Position, frames: seq<Frame>): Position {
    if frames == [] then p else After(frames[|frames| - 1])
  }

  ghost predicate Chain(p: Position, frames: seq<Frame>) {
    forall i :: 0 <= i < |frames| ==> Follows(End(p, frames[..i]), frames[i])
  }

  ghost predicate PageFollows(p: Position, page: Page) {
    && page.confirmed && |page.frames| <= MAX_PAGE_FRAMES
    && Chain(p, page.frames)
    && var end := End(p, page.frames);
       && page.nextAfterFrame == end.afterFrame && (end.afterFrame.Some? ==> IsInteger(end.afterFrame.value))
       && page.outcome == end.outcome
       && (page.frames == [] || end.outcome.Some? ==> page.atAvailableEnd)
  }

  method ValidatePage(page: Page, state: Status) returns (ok: bool)
    ensures ok <==> PageFollows(PositionOf(state), page)
  {
    if !page.confirmed || |page.frames| > MAX_PAGE_FRAMES {
      return false;
    }
    var rawEnd, compressedEnd, outcome, cursor := state.rawEnd, state.compressedEnd, state.outcome, state.afterFrame;
    for i := 0 to |page.frames|
      invariant Chain(PositionOf(state), page.frames[..i])
      invariant Position(rawEnd, compressedEnd, cursor, outcome) == End(PositionOf(state), page.frames[..i])
    {
      var frame := page.frames[i];
      if !Follows(Position(rawEnd, compressedEnd, cursor, outcome), frame) {
        return false;
      }
      ChainSnoc(PositionOf(state), page.frames[..i], frame);
      assert page.frames[..i + 1] == page.frames[..i] + [frame];
      rawEnd, compressedEnd, outcome, cursor := frame.rawEnd, frame.last, frame.outcome, Some(frame.first);
    }
    assert page.frames[..|page.frames|] == page.frames;
    if page.nextAfterFrame.Some? && !IsInteger(page.nextAfterFrame.value) {
      return false;
    }
    if page.nextAfterFrame != cursor || page.outcome != outcome {
      return false;
    }
    return !((page.frames == [] || outcome.Some?) && !page.atAvailableEnd);
  }

  lemma ChainSnoc(p: Position, frames: seq<Frame>, f: Frame)
    requires Chain(p, frames) && Follows(End(p, frames), f)
    ensures Chain(p, frames + [f])
  {
    forall i | 0 <= i < |frames| + 1
      ensures Follows(End(p, (frames + [f])[..i]), (frames + [f])[i])
    {
      assert (frames + [f])[..i] == frames[..i];
      assert frames[..|frames|] == frames;
    }
  }

  lemma ChainTail(p: Position, frames: seq<Frame>)
    requires Chain(p, frames) && frames != []
    ensures Follows(p, frames[0]) && Chain(After(frames[0]), frames[1..])
    ensures frames[0].first == p.compressedEnd
  {
    assert frames[..0] == [];
    forall i | 0 <= i < |frames| - 1
      ensures Follows(End(After(frames[0]), frames[1..][..i]), frames[1..][i])
    {
      assert Follows(End(p, frames[..i + 1]), frames[i + 1]);
      assert i > 0 ==> frames[1..][..i][i - 1] == frames[..i + 1][i];
    }
  }

  // ---- the two tables of one source ----

  datatype Stored = Stored(frame: Frame, row: Row)

  function Frames(stored: seq<Stored>): (fs: seq<Frame>)
    ensures |fs| == |stored| && forall i :: 0 <= i < |fs| ==> fs[i] == stored[i].frame
  {
    seq(|stored|, i requires 0 <= i < |stored| => stored[i].frame)
  }

  datatype Db = Db(status: Status, stored: seq<Stored>)

  /** UNIQUE(source_key, frame_start) refuses the row. */
  predicate StartTaken(stored: seq<Stored>, first: int) {
    exists i :: 0 <= i < |stored| && stored[i].frame.first == first
  }

  function Committed(db: Db, frame: Frame, row: Row): Db {
    Db(db.status.(afterFrame := Some(frame.first), rawEnd := frame.rawEnd, compressedEnd := frame.last,
                  outcome := frame.outcome, atAvailableEnd := false, error := None),
       db.stored + [Stored(frame, row)])
  }

  /** The whole effect of one `_commit_frame` transaction; `None` when it rolls back. */
  function CommitFrame(db: Db, expected: Status, frame: Frame, window: Option<Row>): Option<Db> {
    if db.status != expected || window.None? || StartTaken(db.stored, frame.first) then None
    else Some(Committed(db, frame, window.value))
  }

  class SourceTables {
    var status: Status
    var stored: seq<Stored>

    function Contents(): Db
      reads this
    {
      Db(status, stored)
    }

    constructor ()
      ensures Contents() == Db(FRESH, [])
    {
      status, stored := FRESH, [];
    }

    /** `window` is the trimmed window of the frame, `None` where it is not UTF-8. */
    method Commit(expected: Status, frame: Frame, window: Option<Row>) returns (ok: bool)
      modifies this
      ensures ok <==> CommitFrame(old(Contents()), expected, frame, window).Some?
      ensures Contents() == if ok then CommitFrame(old(Contents()), expected, frame, window).value else old(Contents())
    {
      if status != expected || window.None? {
        return false;
      }
      for i := 0 to |stored|
        invariant Contents() == old(Contents())
        invariant forall k :: 0 <= k < i ==> stored[k].frame.first != frame.first
      {
        if stored[i].frame.first == frame.first {
          return false;
        }
      }
      stored := stored + [Stored(frame, window.value)];
      status := status.(afterFrame := Some(frame.first), rawEnd := frame.rawEnd, compressedEnd := frame.last,
                        outcome := frame.outcome, atAvailableEnd := false, error := None);
      ok := true;
    }

    /** The closing update of a page: it applies only while the cursor is still that page's. */
    method FinishPage(page: Page)
      modifies this
      ensures stored == old(stored)
      ensures status == if old(status).afterFrame == page.nextAfterFrame
                        then old(status).(atAvailableEnd := page.atAvailableEnd, error := None) else old(status)
    {
      if status.afterFrame == page.nextAfterFrame {
        status := status.(atAvailableEnd := page.atAvailableEnd, error := None);
      }
    }

    method MarkUnavailable(error: string)
      modifies this
      ensures stored == old(stored) && status == old(status).(error := Some(error))
    {
      status := status.(error := Some(error));
    }
  }

  // ---- racing callers ----

  /**
   One `sync` call between its transactions. `base` counts the frames stored when its page's
   remaining frames were next, `seen` those stored when it last read the status.
   */
  datatype Sync =
    | Ready(expected: Status, seen: nat)
    | Working(expected: Status, todo: seq<Frame>, base: nat, seen: nat)
    | Reading(todo: seq<Frame>, base: nat)

  datatype State = State(db: Db, syncs: map<nat, Sync>)

  /** `source` is what the executor serves for byte ranges it confirms. */
  datatype Op =
    | Begin(id: nat)
    | Receive(id: nat, page: Page)
    | Commit(id: nat)
    | Reread(id: nat)
    | Finish(id: nat, page: Page)
    | Fail(id: nat, error: string)
    | Crash(id: nat)

  /** The window of a frame: `confirmed_range` refuses a range the executor cannot serve whole. */
  function WindowRow(source: seq<Byte>, f: Frame): Option<Row> {
    if 0 <= f.rawStart <= f.rawEnd <= |source| then FrameRow(source, f.rawStart, f.rawEnd) else None
  }

  ghost function Apply(source: seq<Byte>, s: State, op: Op): State {
    match op
    case Begin(id) => s.(syncs := s.syncs[id := Ready(s.db.status, |s.db.stored|)])
    case Receive(id, page) =>
      if id in s.syncs && s.syncs[id].Ready? && PageFollows(PositionOf(s.syncs[id].expected), page) then
        var Ready(expected, seen) := s.syncs[id];
        s.(syncs := s.syncs[id := Working(expected, page.frames, seen, seen)])
      else s
    case Commit(id) =>
      if id in s.syncs && s.syncs[id].Working? && s.syncs[id].todo != [] then
        var Working(expected, todo, base, seen) := s.syncs[id];
        match CommitFrame(s.db, expected, todo[0], WindowRow(source, todo[0]))
        case None => s.(syncs := s.syncs - {id})
        case Some(db) => State(db, s.syncs[id := Reading(todo[1..], |db.stored|)])
      else s
    case Reread(id) =>
      if id in s.syncs && s.syncs[id].Reading? then
        var Reading(todo, base) := s.syncs[id];
        s.(syncs := s.syncs[id := Working(s.db.status, todo, base, |s.db.stored|)])
      else s
    case Finish(id, page) =>
      if s.db.status.afterFrame == page.nextAfterFrame then
        State(s.db.(status := s.db.status.(atAvailableEnd := page.atAvailableEnd, error := None)), s.syncs - {id})
      else s.(syncs := s.syncs - {id})
    case Fail(id, error) => State(s.db.(status := s.db.status.(error := Some(error))), s.syncs - {id})
    case Crash(id) => s.(syncs := s.syncs - {id})
  }

  ghost function Run(source: seq<Byte>, ops: seq<Op>): State {
    if ops == [] then State(Db(FRESH, []), map[])
    else Apply(source, Run(source, ops[..|ops| - 1]), ops[|ops| - 1])
  }

  // ---- the confirmed prefix ----

  function EndOf(stored: seq<Stored>, n: nat): Position
    requires n <= |stored|
  {
    End(ORIGIN, Frames(stored)[..n])
  }

  ghost predicate SyncOk(stored: seq<Stored>, y: Sync) {
    match y
    case Ready(expected, seen) => seen <= |stored| && PositionOf(expected) == EndOf(stored, seen)
    case Working(expected, todo, base, seen) =>
      base <= seen <= |stored| && PositionOf(expected) == EndOf(stored, seen) && Chain(EndOf(stored, base), todo)
    case Reading(todo, base) => base <= |stored| && Chain(EndOf(stored, base), todo)
  }

  ghost predicate DbOk(source: seq<Byte>, db: Db) {
    && Chain(ORIGIN, Frames(db.stored)) && PositionOf(db.status) == EndOf(db.stored, |db.stored|)
    && forall i :: 0 <= i < |db.stored| ==> WindowRow(source, db.stored[i].frame) == Some(db.stored[i].row)
  }

  ghost predicate Inv(source: seq<Byte>, s: State) {
    DbOk(source, s.db) && forall id :: id in s.syncs ==> SyncOk(s.db.stored, s.syncs[id])
  }

  /** Each commit moves the compressed end on, so equal ends mean no commit in between. */
  lemma {:induction false} EndsGrow(stored: seq<Stored>, m: nat, n: nat)
    requires Chain(ORIGIN, Frames(stored)) && m < n <= |stored|
    ensures EndOf(stored, m).compressedEnd < EndOf(stored, n).compressedEnd
    decreases n
  {
    assert Follows(End(ORIGIN, Frames(stored)[..n - 1]), Frames(stored)[n - 1]);
    if m < n - 1 { EndsGrow(stored, m, n - 1); }
  }

  lemma FrameAt(stored: seq<Stored>, n: nat)
    requires Chain(ORIGIN, Frames(stored)) && n < |stored|
    ensures Follows(EndOf(stored, n), stored[n].frame) && StartTaken(stored, EndOf(stored, n).compressedEnd)
  {
    assert Follows(End(ORIGIN, Frames(stored)[..n]), Frames(stored)[n]);
  }

  /**
   The heart of the race. A caller re-reads the status outside its own commit, so its next
   compare may succeed on a status another caller produced; but then that caller already
   stored a frame where this one's next frame starts, and uniqueness refuses it.
   */
  lemma CommitContinues(source: seq<Byte>, db: Db, y: Sync)
    requires DbOk(source, db) && SyncOk(db.stored, y) && y.Working? && y.todo != []
    requires db.status == y.expected && !StartTaken(db.stored, y.todo[0].first)
    ensures Follows(PositionOf(db.status), y.todo[0]) && y.base == |db.stored|
  {
    hide WindowRow, Follows, EndOf, StartTaken;
    var n := |db.stored|;
    if y.seen < n { EndsGrow(db.stored, y.seen, n); }
    ChainTail(EndOf(db.stored, y.base), y.todo);
    if y.base < n { FrameAt(db.stored, y.base); }
  }

  lemma EndOfLonger(stored: seq<Stored>, more: Stored, n: nat)
    requires n <= |stored|
    ensures EndOf(stored + [more], n) == EndOf(stored, n)
  {
    assert Frames(stored + [more])[..n] == Frames(stored)[..n];
  }

  lemma SyncOkLonger(stored: seq<Stored>, more: Stored, y: Sync)
    requires SyncOk(stored, y)
    ensures SyncOk(stored + [more], y)
  {
    hide EndOf;
    match y {
      case Ready(expected, seen) => EndOfLonger(stored, more, seen);
      case Working(expected, todo, base, seen) =>
        EndOfLonger(stored, more, seen);
        EndOfLonger(stored, more, base);
      case Reading(todo, base) => EndOfLonger(stored, more, base);
    }
  }

  lemma CommittedOk(source: seq<Byte>, db: Db, frame: Frame, row: Row)
    requires DbOk(source, db) && Follows(PositionOf(db.status), frame) && WindowRow(source, frame) == Some(row)
    ensures DbOk(source, Committed(db, frame, row))
    ensures EndOf(db.stored + [Stored(frame, row)], |db.stored| + 1) == After(frame)
  {
    hide WindowRow, Follows, Chain;
    var fs := Frames(db.stored);
    assert fs[..|fs|] == fs;
    ChainSnoc(ORIGIN, fs, frame);
    var longer := Frames(db.stored + [Stored(frame, row)]);
    assert longer == fs + [frame];
    assert longer[..|longer|] == longer;
  }

  lemma CommitKeepsInv(source: seq<Byte>, s: State, id: nat)
    requires Inv(source, s) && id in s.syncs && s.syncs[id].Working? && s.syncs[id].todo != []
    ensures Inv(source, Apply(source, s, Commit(id)))
  {
    hide EndOf, WindowRow, StartTaken;
    var y := s.syncs[id];
    var frame := y.todo[0];
    var window := WindowRow(source, frame);
    if CommitFrame(s.db, y.expected, frame, window).Some? {
      CommitContinues(source, s.db, y);
      CommittedOk(source, s.db, frame, window.value);
      ChainTail(EndOf(s.db.stored, y.base), y.todo);
      forall k | k in s.syncs
        ensures SyncOk(s.db.stored + [Stored(frame, window.value)], s.syncs[k])
      {
        SyncOkLonger(s.db.stored, Stored(frame, window.value), s.syncs[k]);
      }
    }
  }

  lemma StepKeepsInv(source: seq<Byte>, s: State, op: Op)
    requires Inv(source, s)
    ensures Inv(source, Apply(source, s, op))
  {
    hide EndOf, WindowRow;
    if op.Commit? && op.id in s.syncs && s.syncs[op.id].Working? && s.syncs[op.id].todo != [] {
      CommitKeepsInv(source, s, op.id);
    }
  }

  lemma {:induction false} RunKeepsInv(source: seq<Byte>, ops: seq<Op>)
    ensures Inv(source, Run(source, ops))
    decreases |ops|
  {
    if ops != [] {
      RunKeepsInv(source, ops[..|ops| - 1]);
      StepKeepsInv(source, Run(source, ops[..|ops| - 1]), ops[|ops| - 1]);
    }
  }

  ghost predicate LaidEndToEnd(stored: seq<Stored>, i: nat)
    requires i < |stored|
  {
    var f := stored[i].frame;
    && f.rawStart <= f.rawEnd && f.first < f.last
    && if i == 0 then f.rawStart == f.first == 0
       else
         var before := stored[i - 1].frame;
         f.rawStart == before.rawEnd && f.first == before.last && before.outcome == None
  }

  /** Frames laid end to end from zero, in raw and in compressed bytes, none after a seal. */
  ghost predicate ConfirmedPrefix(db: Db) {
    && (forall i :: 0 <= i < |db.stored| ==> LaidEndToEnd(db.stored, i))
    && PositionOf(db.status) == (if db.stored == [] then ORIGIN else After(db.stored[|db.stored| - 1].frame))
  }

  lemma ChainAt(stored: seq<Stored>, i: nat)
    requires Chain(ORIGIN, Frames(stored)) && i < |stored|
    ensures LaidEndToEnd(stored, i)
  {
    var fs := Frames(stored);
    assert Follows(End(ORIGIN, fs[..i]), fs[i]);
    assert i > 0 ==> fs[..i][i - 1] == fs[i - 1];
  }

  lemma DbOkIsPrefix(source: seq<Byte>, db: Db)
    requires DbOk(source, db)
    ensures ConfirmedPrefix(db)
  {
    hide WindowRow, Chain, LaidEndToEnd;
    var fs := Frames(db.stored);
    assert fs[..|fs|] == fs;
    assert PositionOf(db.status) == End(ORIGIN, fs);
    forall i | 0 <= i < |db.stored|
      ensures LaidEndToEnd(db.stored, i)
    {
      ChainAt(db.stored, i);
    }
  }

  /**
   Whatever pages the executor sends and however the transactions of any number of callers
   interleave, fail and crash, the stored frames are a confirmed prefix of the source.
   */
  lemma RacingSyncsKeepAPrefix(source: seq<Byte>, ops: seq<Op>)
    ensures ConfirmedPrefix(Run(source, ops).db)
  {
    hide Run, DbOk, ConfirmedPrefix;
    RunKeepsInv(source, ops);
    DbOkIsPrefix(source, Run(source, ops).db);
  }

  function Rows(stored: seq<Stored>): (rows: seq<Row>)
    ensures |rows| == |stored| && forall i :: 0 <= i < |rows| ==> rows[i] == stored[i].row
  {
    seq(|stored|, i requires 0 <= i < |stored| => stored[i].row)
  }

  lemma RowPlace(source: seq<Byte>, rawStart: nat, rawEnd: nat)
    requires rawStart <= rawEnd <= |source|
    ensures var r := FrameRow(source, rawStart, rawEnd);
            r.Some? ==> r.value.rawStart == rawStart && r.value.rawEnd == rawEnd
  {
    hide IndexedRow;
    IndexedRowPlace(rawStart, rawEnd, rawEnd, []);
    IndexedRowPlace(rawStart, rawEnd, OverlapStart(rawStart), source[OverlapStart(rawStart)..rawEnd]);
  }

  lemma StoredRowIndexes(source: seq<Byte>, s: Stored)
    requires WindowRow(source, s.frame) == Some(s.row)
    ensures IndexesFrame(source, s.row)
    ensures s.row.rawStart == s.frame.rawStart && s.row.rawEnd == s.frame.rawEnd
  {
    hide FrameRow;
    RowPlace(source, s.frame.rawStart, s.frame.rawEnd);
  }

  lemma DbOkIndexes(source: seq<Byte>, db: Db)
    requires DbOk(source, db)
    ensures Indexes(source, Rows(db.stored)) && IndexedEnd(Rows(db.stored)) == db.status.rawEnd
  {
    hide WindowRow, Chain, IndexesFrame;
    DbOkIsPrefix(source, db);
    var rows := Rows(db.stored);
    forall i | 0 <= i < |rows|
      ensures IndexesFrame(source, rows[i]) && rows[i].rawStart == db.stored[i].frame.rawStart
      ensures rows[i].rawEnd == db.stored[i].frame.rawEnd
    {
      StoredRowIndexes(source, db.stored[i]);
    }
    forall i | 0 <= i < |rows|
      ensures rows[i].rawStart == IndexedEnd(rows[..i])
    {
      assert LaidEndToEnd(db.stored, i);
      assert db.stored[i].frame.rawStart == (if i == 0 then 0 else db.stored[i - 1].frame.rawEnd);
      assert i > 0 ==> rows[..i][i - 1] == rows[i - 1];
    }
  }

  /** So the rows always index a prefix of the source up to the confirmed end, as search needs. */
  lemma RacingSyncsIndexAPrefix(source: seq<Byte>, ops: seq<Op>)
    ensures var db := Run(source, ops).db;
            Indexes(source, Rows(db.stored)) && IndexedEnd(Rows(db.stored)) == db.status.rawEnd
  {
    hide Run, DbOk, Indexes, Rows;
    RunKeepsInv(source, ops);
    DbOkIndexes(source, Run(source, ops).db);
  }

  /** Ingestion and search together: after any run, every indexed occurrence is found, in one row. */
  lemma EveryIndexedOccurrenceIsFound(cs: seq<Rune>, ops: seq<Op>, q: seq<Rune>, p: nat, hit: Option<Hit>) returns (i: nat)
    requires QueryOk(q) && OccursAt(EncodeAll(cs), EncodeAll(q), p)
    requires p + |EncodeAll(q)| <= Run(EncodeAll(cs), ops).db.status.rawEnd
    ensures var rows := Rows(Run(EncodeAll(cs), ops).db.stored);
            && OnlyOwner(EncodeAll(cs), EncodeAll(q), rows, p, i) && Candidate(rows[i], q)
            && (IsRowHit(EncodeAll(cs), rows[i], q, i + 1, hit) ==> hit.Some? && hit.value.matchStart <= p)
  {
    hide Encode, EncodeAll, FrameRow, Candidate, OccursAt, IsRowHit, Run, OwnedOccurrence;
    RacingSyncsIndexAPrefix(EncodeAll(cs), ops);
    i := SearchIsNaive(cs, Rows(Run(EncodeAll(cs), ops).db.stored), q, p, hit);
  }

  /**
   The uniqueness constraint carries its share: there is a run after which a caller's compare
   succeeds although its next frame does not continue the prefix, so that only
   UNIQUE(source_key, frame_start) stands in the way.
   */
  lemma CompareAloneIsNotEnough() returns (ops: seq<Op>)
    ensures var s := Run([], ops);
            && 0 in s.syncs && s.syncs[0].Working? && s.syncs[0].todo != []
            && s.syncs[0].expected == s.db.status
            && !Follows(PositionOf(s.db.status), s.syncs[0].todo[0])
  {
    hide WindowRow;
    var f := Frame(0, 0, 0, 1, false, None, true);
    var g := Frame(0, 0, 1, 2, false, None, true);
    EmptyWindow(f);
    EmptyWindow(g);
    var page := Page(true, true, [f, g], Some(1), None);
    var tail := Page(true, true, [g], Some(1), None);
    var s2 := TwoSteps([], Begin(0), Receive(0, page));
    ops := [] + [Begin(0), Receive(0, page)];
    assert Chain(ORIGIN, page.frames) by { assert page.frames[..0] == [] && page.frames[..1] == [f]; }
    assert s2.syncs[0] == Working(FRESH, [f, g], 0, 0);
    var s4 := TwoSteps(ops, Commit(0), Begin(1));
    ops := ops + [Commit(0), Begin(1)];
    assert s4.db.stored[0].frame == f && PositionOf(s4.db.status) == After(f);
    assert s4.syncs[0] == Reading([g], 1) && s4.syncs[1] == Ready(s4.db.status, 1);
    var s6 := TwoSteps(ops, Receive(1, tail), Commit(1));
    ops := ops + [Receive(1, tail), Commit(1)];
    assert Chain(After(f), tail.frames) by { assert tail.frames[..0] == []; }
    assert PositionOf(s6.db.status) == After(g) && s6.syncs[0] == Reading([g], 1);
    var s8 := TwoSteps(ops, Reread(0), Crash(1));
    ops := ops + [Reread(0), Crash(1)];
  }

  lemma EmptyWindow(f: Frame)
    requires f.rawStart == f.rawEnd == 0
    ensures WindowRow([], f).Some?
  {
    assert WindowOf(0, []) == Some(Window(0, [], []));
  }

  lemma TwoSteps(ops: seq<Op>, a: Op, b: Op) returns (s: State)
    ensures s == Run([], ops + [a, b]) == Apply([], Apply([], Run([], ops), a), b)
  {
    hide Apply;
    assert (ops + [a, b])[..|ops| + 1] == ops + [a];
    assert (ops + [a])[..|ops|] == ops;
    s := Run([], ops + [a, b]);
  }

  // ---- an undisturbed caller gets on ----

  /** In an honest prefix nothing is stored where the next frame starts. */
  lemma NextStartIsFree(source: seq<Byte>, db: Db, first: int)
    requires DbOk(source, db) && first == db.status.compressedEnd
    ensures !StartTaken(db.stored, first)
  {
    hide WindowRow, Follows;
    forall i | 0 <= i < |db.stored| ensures db.stored[i].frame.first != first {
      EndsGrow(db.stored, i, |db.stored|);
      assert Follows(End(ORIGIN, Frames(db.stored)[..i]), Frames(db.stored)[i]);
      FollowsMeans(EndOf(db.stored, i), db.stored[i].frame);
    }
  }

  lemma FollowsMeans(p: Position, f: Frame)
    requires Follows(p, f)
    ensures f.first == p.compressedEnd && f.rawStart == p.rawEnd && f.rawStart <= f.rawEnd && f.first < f.last
  {
  }

  /**
   A frame that begins where the stored prefix ends, in raw and compressed bytes, with a window to
   index, is stored by a commit with the current status, and the cursor moves past it.
   */
  lemma CommitMakesProgress(source: seq<Byte>, db: Db, f: Frame, row: Row)
    requires DbOk(source, db) && f.first == db.status.compressedEnd && WindowRow(source, f) == Some(row)
    ensures CommitFrame(db, db.status, f, Some(row)) ==
            Some(Db(Status(Some(f.first), f.rawEnd, f.last, f.outcome, false, None), db.stored + [Stored(f, row)]))
  {
    hide WindowRow;
    NextStartIsFree(source, db, f.first);
  }

  /**
   What an executor that tells the truth sends after `raw` and `compressed` bytes: frames end to
   end, at most `MAX_FRAME_BYTES` each, and a seal only as an empty control frame at the end.
   */
  predicate Honest(raw: int, compressed: int, frames: seq<Frame>)
    decreases |frames|
  {
    frames == [] ||
    var f := frames[0];
    && f.shaped && f.rawStart == raw && raw <= f.rawEnd <= raw + MAX_FRAME_BYTES && f.rawEnd <= MAX_INTEGER
    && f.first == compressed < f.last <= MAX_INTEGER
    && (f.outcome.Some? ==> f.control && f.rawStart == f.rawEnd && |frames| == 1)
    && Honest(f.rawEnd, f.last, frames[1..])
  }

  lemma {:induction false} HonestFollows(p: Position, frames: seq<Frame>)
    requires p.rawEnd >= 0 && p.compressedEnd >= 0 && p.outcome.None? && Honest(p.rawEnd, p.compressedEnd, frames)
    ensures Chain(p, frames)
    decreases |frames|
  {
    if frames != [] {
      if frames[0].outcome.None? {
        HonestFollows(After(frames[0]), frames[1..]);
      }
      forall i | 0 <= i < |frames| ensures Follows(End(p, frames[..i]), frames[i]) {
        if i > 0 {
          assert frames[1..][..i - 1] == frames[1..i];
          assert Follows(End(After(frames[0]), frames[1..][..i - 1]), frames[1..][i - 1]);
          assert frames[..i][i - 1] == frames[i - 1];
        }
      }
    }
  }

  lemma {:induction false} HonestEnds(raw: int, compressed: int, frames: seq<Frame>, p: Position)
    requires raw >= 0 && compressed >= 0 && Honest(raw, compressed, frames) && frames != []
    ensures var end := End(p, frames); end.afterFrame.Some? && IsInteger(end.afterFrame.value)
    decreases |frames|
  {
    if |frames| > 1 {
      HonestEnds(frames[0].rawEnd, frames[0].last, frames[1..], p);
      assert frames[1..][|frames| - 2] == frames[|frames| - 1];
    }
  }

  /** The page of a truthful executor for the frames it sends after position `p`. */
  function HonestPage(p: Position, frames: seq<Frame>, atEnd: bool): Page {
    Page(true, atEnd, frames, End(p, frames).afterFrame, End(p, frames).outcome)
  }

  /** Every honest page is accepted. */
  lemma HonestPagesAreAccepted(state: Status, frames: seq<Frame>, atEnd: bool)
    requires state.rawEnd >= 0 && state.compressedEnd >= 0 && state.outcome.None? && |frames| <= MAX_PAGE_FRAMES
    requires Honest(state.rawEnd, state.compressedEnd, frames) && (state.afterFrame.Some? ==> IsInteger(state.afterFrame.value))
    requires frames == [] || frames[|frames| - 1].outcome.Some? ==> atEnd
    ensures PageFollows(PositionOf(state), HonestPage(PositionOf(state), frames, atEnd))
  {
    hide Chain, Honest;
    HonestFollows(PositionOf(state), frames);
    if frames != [] {
      HonestEnds(state.rawEnd, state.compressedEnd, frames, PositionOf(state));
    }
  }

  ghost function Continue(source: seq<Byte>, s: State, ops: seq<Op>): State
    decreases |ops|
  {
    if ops == [] then s else Continue(source, Apply(source, s, ops[0]), ops[1..])
  }

  lemma {:induction false} RunContinues(source: seq<Byte>, ops: seq<Op>, more: seq<Op>)
    ensures Run(source, ops + more) == Continue(source, Run(source, ops), more)
    decreases |more|
  {
    hide Apply;
    if more == [] {
      assert ops + more == ops;
    } else {
      assert (ops + [more[0]])[..|ops|] == ops;
      assert ops + more == (ops + [more[0]]) + more[1..];
      RunContinues(source, ops + [more[0]], more[1..]);
    }
  }

  lemma {:induction false} ContinueJoin(source: seq<Byte>, s: State, a: seq<Op>, b: seq<Op>)
    ensures Continue(source, s, a + b) == Continue(source, Continue(source, s, a), b)
    decreases |a|
  {
    hide Apply;
    if a == [] {
      assert a + b == b;
    } else {
      assert (a + b)[0] == a[0] && (a + b)[1..] == a[1..] + b;
      ContinueJoin(source, Apply(source, s, a[0]), a[1..], b);
    }
  }

  /** The frame loop of `sync`: commit, then read the status again. */
  function CommitOps(id: nat, n: nat): seq<Op> {
    if n == 0 then [] else [Commit(id), Reread(id)] + CommitOps(id, n - 1)
  }

  /** One `sync` call with one page. */
  function SyncOps(id: nat, page: Page): seq<Op> {
    [Begin(id), Receive(id, page)] + CommitOps(id, |page.frames|) + [Finish(id, page)]
  }

  /** Every frame lies in the source, so each has a window: the source is UTF-8. */
  predicate Within(source: seq<Byte>, frames: seq<Frame>) {
    forall i :: 0 <= i < |frames| ==> frames[i].rawEnd <= |source|
  }

  lemma HonestWindow(cs: seq<Rune>, f: Frame) returns (row: Row)
    requires 0 <= f.rawStart <= f.rawEnd <= |EncodeAll(cs)|
    ensures WindowRow(EncodeAll(cs), f) == Some(row)
  {
    hide Encode, EncodeAll, FrameRow;
    var r, i, j := FrameRowText(cs, f.rawStart, f.rawEnd);
    row := r;
  }

  /** The state in which this caller is about to commit `todo`, having just read the status. */
  ghost predicate AtLoop(source: seq<Byte>, s: State, id: nat, todo: seq<Frame>) {
    && DbOk(source, s.db) && id in s.syncs && s.syncs[id].Working?
    && s.syncs[id].expected == s.db.status && s.syncs[id].todo == todo
    && Chain(PositionOf(s.db.status), todo) && s.db.status.rawEnd >= 0
  }

  lemma OneFrameIsStored(cs: seq<Rune>, s: State, id: nat, todo: seq<Frame>)
    requires AtLoop(EncodeAll(cs), s, id, todo) && todo != [] && Within(EncodeAll(cs), todo)
    ensures var t := Apply(EncodeAll(cs), Apply(EncodeAll(cs), s, Commit(id)), Reread(id));
            && AtLoop(EncodeAll(cs), t, id, todo[1..])
            && Frames(t.db.stored) == Frames(s.db.stored) + [todo[0]]
            && PositionOf(t.db.status) == After(todo[0])
  {
    hide Encode, EncodeAll, FrameRow, Chain, Follows;
    var source, f := EncodeAll(cs), todo[0];
    ChainTail(PositionOf(s.db.status), todo);
    FollowsMeans(PositionOf(s.db.status), f);
    var row := HonestWindow(cs, f);
    CommitMakesProgress(source, s.db, f, row);
    CommittedOk(source, s.db, f, row);
    hide DbOk, WindowRow, EndOf;
    assert Frames(s.db.stored + [Stored(f, row)]) == Frames(s.db.stored) + [f];
    assert Committed(s.db, f, row).status == Status(Some(f.first), f.rawEnd, f.last, f.outcome, false, None);
  }

  lemma {:induction false} FramesAreStored(cs: seq<Rune>, s: State, id: nat, todo: seq<Frame>)
    requires AtLoop(EncodeAll(cs), s, id, todo) && Within(EncodeAll(cs), todo)
    ensures var t := Continue(EncodeAll(cs), s, CommitOps(id, |todo|));
            && AtLoop(EncodeAll(cs), t, id, [])
            && Frames(t.db.stored) == Frames(s.db.stored) + todo
            && PositionOf(t.db.status) == End(PositionOf(s.db.status), todo)
    decreases |todo|
  {
    hide Encode, EncodeAll, AtLoop, Apply, Frames;
    var source := EncodeAll(cs);
    if todo == [] {
      assert Frames(s.db.stored) + [] == Frames(s.db.stored);
    } else {
      OneFrameIsStored(cs, s, id, todo);
      var t := Apply(source, Apply(source, s, Commit(id)), Reread(id));
      TwoThen(source, s, Commit(id), Reread(id), CommitOps(id, |todo| - 1));
      assert Within(source, todo[1..]) by {
        assert forall i :: 0 <= i < |todo| - 1 ==> todo[1..][i] == todo[i + 1];
      }
      FramesAreStored(cs, t, id, todo[1..]);
      assert Frames(s.db.stored) + todo == Frames(s.db.stored) + [todo[0]] + todo[1..];
      assert End(After(todo[0]), todo[1..]) == End(PositionOf(s.db.status), todo);
    }
  }

  lemma TwoThen(source: seq<Byte>, s: State, a: Op, b: Op, rest: seq<Op>)
    ensures Continue(source, s, [a, b] + rest) == Continue(source, Apply(source, Apply(source, s, a), b), rest)
  {
    hide Apply;
    assert ([a, b] + rest)[1..] == [b] + rest && ([b] + rest)[1..] == rest;
  }

  /**
   Ingestion gets on: after any run that left the source unsealed, one undisturbed call that an
   honest executor answers, over a UTF-8 source that holds the frames, stores all of them and
   leaves the status at the page's end, whether it is the available end, and no error.
   */
  lemma UndisturbedSyncStoresThePage(cs: seq<Rune>, ops: seq<Op>, id: nat, frames: seq<Frame>, atEnd: bool)
    requires var s := Run(EncodeAll(cs), ops).db.status;
             && s.outcome.None? && Honest(s.rawEnd, s.compressedEnd, frames) && |frames| <= MAX_PAGE_FRAMES
             && Within(EncodeAll(cs), frames)
    requires frames == [] || frames[|frames| - 1].outcome.Some? ==> atEnd
    ensures var before := Run(EncodeAll(cs), ops).db;
            var page := HonestPage(PositionOf(before.status), frames, atEnd);
            var after := Run(EncodeAll(cs), ops + SyncOps(id, page)).db;
            && Frames(after.stored) == Frames(before.stored) + frames
            && PositionOf(after.status) == End(PositionOf(before.status), frames)
            && after.status.atAvailableEnd == atEnd && after.status.error == None
  {
    hide Run, Encode, EncodeAll, Frames, Honest, SyncOps, Apply, PageFollows, DbOk, Within;
    var source := EncodeAll(cs);
    var s := Run(source, ops);
    assert DbOk(source, s.db) by { RunKeepsInv(source, ops); }
    var page := HonestPage(PositionOf(s.db.status), frames, atEnd);
    StatusIsSound(source, s.db);
    HonestPagesAreAccepted(s.db.status, frames, atEnd);
    RunContinues(source, ops, SyncOps(id, page));
    SyncStores(cs, s, id, page);
  }

  lemma SyncStores(cs: seq<Rune>, s: State, id: nat, page: Page)
    requires DbOk(EncodeAll(cs), s.db) && PageFollows(PositionOf(s.db.status), page) && s.db.status.rawEnd >= 0
    requires Within(EncodeAll(cs), page.frames)
    ensures var after := Continue(EncodeAll(cs), s, SyncOps(id, page)).db;
            && Frames(after.stored) == Frames(s.db.stored) + page.frames
            && PositionOf(after.status) == End(PositionOf(s.db.status), page.frames)
            && after.status.atAvailableEnd == page.atAvailableEnd && after.status.error == None
  {
    hide Encode, EncodeAll, Frames, Apply, DbOk, Within, AtLoop, Continue, Chain;
    var source := EncodeAll(cs);
    assert page.nextAfterFrame == End(PositionOf(s.db.status), page.frames).afterFrame;
    var t := Apply(source, Apply(source, s, Begin(id)), Receive(id, page));
    ReceivedIsAtLoop(source, s, id, page);
    hide PageFollows;
    FramesAreStored(cs, t, id, page.frames);
    var u := Continue(source, t, CommitOps(id, |page.frames|));
    TwoThen(source, s, Begin(id), Receive(id, page), CommitOps(id, |page.frames|) + [Finish(id, page)]);
    assert SyncOps(id, page) == [Begin(id), Receive(id, page)] + (CommitOps(id, |page.frames|) + [Finish(id, page)]);
    ContinueJoin(source, t, CommitOps(id, |page.frames|), [Finish(id, page)]);
    OneMore(source, u, Finish(id, page));
    FinishLands(source, u, id, page);
  }

  lemma FinishLands(source: seq<Byte>, s: State, id: nat, page: Page)
    requires s.db.status.afterFrame == page.nextAfterFrame
    ensures var d := Apply(source, s, Finish(id, page)).db;
            && d.stored == s.db.stored && PositionOf(d.status) == PositionOf(s.db.status)
            && d.status.atAvailableEnd == page.atAvailableEnd && d.status.error == None
  {
  }

  lemma OneMore(source: seq<Byte>, s: State, op: Op)
    ensures Continue(source, s, [op]) == Apply(source, s, op)
  {
    hide Apply;
    assert Continue(source, Apply(source, s, op), [op][1..]) == Apply(source, s, op);
  }

  lemma ReceivedIsAtLoop(source: seq<Byte>, s: State, id: nat, page: Page)
    requires DbOk(source, s.db) && PageFollows(PositionOf(s.db.status), page) && s.db.status.rawEnd >= 0
    ensures var t := Apply(source, Apply(source, s, Begin(id)), Receive(id, page));
            t.db == s.db && AtLoop(source, t, id, page.frames)
  {
    hide Chain, DbOk;
  }

  /** The status of a reachable store: nonnegative ends and a representable cursor. */
  lemma StatusIsSound(source: seq<Byte>, db: Db)
    requires DbOk(source, db)
    ensures db.status.rawEnd >= 0 && db.status.compressedEnd >= 0
    ensures db.status.afterFrame.Some? ==> IsInteger(db.status.afterFrame.value)
  {
    hide WindowRow;
    var fs := Frames(db.stored);
    assert fs[..|fs|] == fs;
    if fs != [] {
      assert Follows(End(ORIGIN, fs[..|fs| - 1]), fs[|fs| - 1]);
    }
  }
}
