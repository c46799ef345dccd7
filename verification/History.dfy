/**
 The append-only history (`history.py`): what a mutation of a projection row overwrites is kept as
 a sparse entry in the same savepoint, so replaying a row's entries gives the row back.
 */
module History {
  import opened Options

  datatype Entity = TaskRow | EffectRow | WakeRow | CommandRow | CleanupRow

  /** The identity an entry is filed under. */
  datatype Key = Key(entity: Entity, id: string)

  type Column = string
  type Value = string
  type Row = map<Column, Value>

  datatype Kind = Created | Transition | Observation | Baseline

  datatype Entry = Entry(key: Key, kind: Kind, cause: string, changed: map<Column, Value>, missing: bool)

  datatype DB = DB(rows: map<Key, Row>, log: seq<Entry>)

  datatype Write = SetColumn(key: Key, column: Column, value: Value) | InsertRow(key: Key, row: Row) | DeleteRow(key: Key)

  /** A statement, or a `change` block around statements; `raises` ends the block with an exception. */
  datatype Step =
    | Raw(write: Write)
    | Change(key: Key, kind: Kind, cause: string, body: seq<Step>, raises: bool)

  const DERIVED_COLUMNS: set<Column> := {"updated_at"}

  predicate Mirrored(entity: Entity, c: Column) {
    c !in DERIVED_COLUMNS && !(entity == WakeRow && c == "payload")
  }

  function RowAt(db: DB, k: Key): Option<Row> {
    if k in db.rows then Some(db.rows[k]) else None
  }

  function Wrote(rows: map<Key, Row>, w: Write): map<Key, Row> {
    match w
    case SetColumn(k, c, v) => if k in rows && c in rows[k] then rows[k := rows[k][c := v]] else rows
    case InsertRow(k, row) => if k in rows then rows else rows[k := row]
    case DeleteRow(k) => rows - {k}
  }

  /** `changed_columns`: the new values an update wrote, without the derived columns. */
  function ChangedColumns(before: Option<Row>, after: Row): map<Column, Value> {
    map c | c in after && c !in DERIVED_COLUMNS && (before.None? || c !in before.value || before.value[c] != after[c]) :: after[c]
  }

  function Without(m: map<Column, Value>, c: Column): map<Column, Value> {
    m - {c}
  }

  function Appended(log: seq<Entry>, k: Key, kind: Kind, cause: string, changed: map<Column, Value>, missing: bool): seq<Entry> {
    if changed == map[] then log else log + [Entry(k, kind, cause, changed, missing)]
  }

  function Diff(k: Key, before: Option<Row>, after: Row): map<Column, Value> {
    if k.entity == WakeRow then Without(ChangedColumns(before, after), "payload") else ChangedColumns(before, after)
  }

  /** What leaving a `change` block records. */
  function Recorded(before: DB, after: DB, k: Key, kind: Kind, cause: string): DB {
    if k !in after.rows then after
    else after.(log := Appended(after.log, k, if k in before.rows then kind else Created, cause,
                                Diff(k, RowAt(before, k), after.rows[k]), false))
  }

  function Exec(db: DB, step: Step): DB
    decreases step
  {
    match step
    case Raw(w) => db.(rows := Wrote(db.rows, w))
    case Change(k, kind, cause, body, raises) =>
      var after := ExecAll(db, body);
      if raises then db else Recorded(db, after, k, kind, cause)
  }

  function ExecAll(db: DB, steps: seq<Step>): DB
    decreases steps
  {
    if steps == [] then db else Exec(ExecAll(db, steps[..|steps| - 1]), steps[|steps| - 1])
  }

  // ---- the store ----

  class Store {
    var rows: map<Key, Row>
    var log: seq<Entry>

    function Contents(): DB
      reads this
    {
      DB(rows, log)
    }

    constructor ()
      ensures Contents() == DB(map[], [])
    {
      rows, log := map[], [];
    }

    method RecordChange(k: Key, kind: Kind, cause: string, changed: map<Column, Value>, missing: bool)
      modifies this
      ensures Contents() == old(Contents()).(log := Appended(old(log), k, kind, cause, changed, missing))
    {
      if changed == map[] {
        return;
      }
      log := log + [Entry(k, kind, cause, changed, missing)];
    }

    /** A savepoint around the body: rolled back with everything in it, or kept with its entry. */
    method Execute(step: Step)
      modifies this
      ensures Contents() == Exec(old(Contents()), step)
      decreases step
    {
      match step
      case Raw(w) => rows := Wrote(rows, w);
      case Change(k, kind, cause, body, raises) =>
        var savedRows, savedLog := rows, log;
        var before := if k in rows then Some(rows[k]) else None;
        ExecuteAll(body);
        if raises {
          rows, log := savedRows, savedLog;
        } else if k in rows {
          var changed := ChangedColumns(before, rows[k]);
          if k.entity == WakeRow {
            changed := changed - {"payload"};
          }
          RecordChange(k, if before.None? then Created else kind, cause, changed, false);
        }
    }

    method ExecuteAll(steps: seq<Step>)
      modifies this
      ensures Contents() == ExecAll(old(Contents()), steps)
      decreases steps
    {
      hide Exec;
      if steps != [] {
        ExecuteAll(steps[..|steps| - 1]);
        Execute(steps[|steps| - 1]);
      }
    }

    /** One observed snapshot per row that predates the history. */
    method RecordBaselines(keys: seq<Key>)
      requires forall k :: k in keys ==> k in rows
      modifies this`log
      ensures Contents() == Baselines(old(Contents()), keys)
    {
      ghost var before := Contents();
      var i := 0;
      while i < |keys|
        invariant 0 <= i <= |keys|
        invariant Contents() == Baselines(before, keys[..i])
      {
        assert keys[..i + 1][..i] == keys[..i];
        var values := rows[keys[i]];
        if keys[i].entity == WakeRow {
          values := values - {"payload"};
        }
        if values != map[] {
          log := log + [Entry(keys[i], Baseline, "observed-baseline", values, true)];
        }
        i := i + 1;
      }
      assert keys[..i] == keys;
    }
  }

  function Snapshot(k: Key, row: Row): map<Column, Value> {
    if k.entity == WakeRow then Without(row, "payload") else row
  }

  function Baselines(db: DB, keys: seq<Key>): DB {
    if keys == [] then db
    else
      var d, k := Baselines(db, keys[..|keys| - 1]), keys[|keys| - 1];
      if k in db.rows then d.(log := Appended(d.log, k, Baseline, "observed-baseline", Snapshot(k, db.rows[k]), true)) else d
  }

  // ---- replay ----

  /** A row's timeline: its creation or baseline, and every later sparse change over it. */
  function Replay(log: seq<Entry>, k: Key): Row {
    if log == [] then map[]
    else
      var before, last := Replay(log[..|log| - 1], k), log[|log| - 1];
      if last.key == k then before + last.changed else before
  }

  lemma ReplaySnoc(log: seq<Entry>, e: Entry, k: Key)
    ensures Replay(log + [e], k) == if e.key == k then Replay(log, k) + e.changed else Replay(log, k)
  {
    assert (log + [e])[..|log|] == log;
  }

  lemma ReplayAppended(log: seq<Entry>, k: Key, kind: Kind, cause: string, changed: map<Column, Value>, missing: bool, x: Key)
    ensures Replay(Appended(log, k, kind, cause, changed, missing), x) ==
            if k == x then Replay(log, x) + changed else Replay(log, x)
  {
    ReplaySnoc(log, Entry(k, kind, cause, changed, missing), x);
    hide Replay;
    if changed == map[] {
      assert Replay(log, x) + changed == Replay(log, x);
    }
  }

  /** Column `c` of row `k`, if the row exists, is what its entries replay to. */
  predicate Faithful(db: DB, k: Key, c: Column) {
    k in db.rows && c in db.rows[k] ==> c in Replay(db.log, k) && Replay(db.log, k)[c] == db.rows[k][c]
  }

  predicate WritesColumn(w: Write, k: Key, c: Column) {
    match w
    case SetColumn(x, d, _) => x == k && d == c
    case InsertRow(x, _) => x == k
    case DeleteRow(x) => false
  }

  /** No `change` block of `k` anywhere in the step. */
  predicate NoChange(step: Step, k: Key)
    decreases step
  {
    match step
    case Raw(_) => true
    case Change(x, _, _, body, _) => x != k && forall i :: 0 <= i < |body| ==> NoChange(body[i], k)
  }

  /** Every write of column `c` of row `k` is inside a `change` block of `k`, and such blocks do not nest. */
  predicate WrittenInside(step: Step, k: Key, c: Column)
    decreases step
  {
    match step
    case Raw(w) => !WritesColumn(w, k, c)
    case Change(x, _, _, body, _) =>
      if x == k then forall i :: 0 <= i < |body| ==> NoChange(body[i], k)
      else forall i :: 0 <= i < |body| ==> WrittenInside(body[i], k, c)
  }

  lemma {:induction false} QuietStep(db: DB, step: Step, k: Key)
    requires NoChange(step, k)
    ensures Replay(Exec(db, step).log, k) == Replay(db.log, k)
    decreases step
  {
    hide Replay, Diff, Appended, Wrote;
    match step
    case Raw(_) =>
    case Change(x, kind, cause, body, raises) =>
      QuietSteps(db, body, k);
      var after := ExecAll(db, body);
      if !raises && x in after.rows {
        ReplayAppended(after.log, x, if x in db.rows then kind else Created, cause,
                       Diff(x, RowAt(db, x), after.rows[x]), false, k);
      }
  }

  lemma {:induction false} QuietSteps(db: DB, steps: seq<Step>, k: Key)
    requires forall i :: 0 <= i < |steps| ==> NoChange(steps[i], k)
    ensures Replay(ExecAll(db, steps).log, k) == Replay(db.log, k)
    decreases steps
  {
    hide Replay, Exec, NoChange;
    if steps != [] {
      QuietSteps(db, steps[..|steps| - 1], k);
      QuietStep(ExecAll(db, steps[..|steps| - 1]), steps[|steps| - 1], k);
    }
  }

  /** Overlaying a replayed row with its own diff gives the new row. */
  lemma DiffCompletes(log: seq<Entry>, k: Key, before: Option<Row>, after: Row, c: Column)
    requires Mirrored(k.entity, c) && c in after
    requires before.Some? && c in before.value ==> c in Replay(log, k) && Replay(log, k)[c] == before.value[c]
    ensures var r := Replay(log, k) + Diff(k, before, after); c in r && r[c] == after[c]
  {
    hide Replay;
    if c !in Diff(k, before, after) {
      assert before.Some? && c in before.value && before.value[c] == after[c];
    }
  }

  lemma RecordedIsFaithful(db: DB, after: DB, k: Key, kind: Kind, cause: string, c: Column)
    requires Mirrored(k.entity, c) && Faithful(db, k, c) && Replay(after.log, k) == Replay(db.log, k)
    ensures Faithful(Recorded(db, after, k, kind, cause), k, c)
  {
    hide Replay, Diff, Appended, Mirrored;
    if k in after.rows && c in after.rows[k] {
      DiffCompletes(after.log, k, RowAt(db, k), after.rows[k], c);
      ReplayAppended(after.log, k, if k in db.rows then kind else Created, cause,
                     Diff(k, RowAt(db, k), after.rows[k]), false, k);
    }
  }

  lemma {:induction false} StepKeepsFaithful(db: DB, step: Step, k: Key, c: Column)
    requires Mirrored(k.entity, c) && Faithful(db, k, c) && WrittenInside(step, k, c)
    ensures Faithful(Exec(db, step), k, c)
    decreases step
  {
    hide Replay, Diff, Appended, Mirrored;
    match step
    case Raw(_) =>
    case Change(x, kind, cause, body, raises) =>
      if !raises {
        var after := ExecAll(db, body);
        if x == k {
          QuietSteps(db, body, k);
          hide Faithful;
          RecordedIsFaithful(db, after, k, kind, cause, c);
        } else {
          StepsKeepFaithful(db, body, k, c);
          if x in after.rows {
            ReplayAppended(after.log, x, if x in db.rows then kind else Created, cause,
                           Diff(x, RowAt(db, x), after.rows[x]), false, k);
          }
        }
      }
  }

  /**
   Replay gives the current row: over every run, with nested blocks and rollbacks, each mirrored
   column that is written only inside the `change` blocks of its row is what its entries replay to.
   */
  lemma {:induction false} StepsKeepFaithful(db: DB, steps: seq<Step>, k: Key, c: Column)
    requires Mirrored(k.entity, c) && Faithful(db, k, c)
    requires forall i :: 0 <= i < |steps| ==> WrittenInside(steps[i], k, c)
    ensures Faithful(ExecAll(db, steps), k, c)
    decreases steps
  {
    hide Faithful, Exec, WrittenInside, Mirrored;
    if steps != [] {
      StepsKeepFaithful(db, steps[..|steps| - 1], k, c);
      StepKeepsFaithful(ExecAll(db, steps[..|steps| - 1]), steps[|steps| - 1], k, c);
    }
  }

  /** A row that predates the history is faithful from its baseline on. */
  lemma {:induction false} BaselineIsFaithful(db: DB, keys: seq<Key>, k: Key, c: Column)
    requires db.log == [] && Mirrored(k.entity, c) && (k in db.rows ==> k in keys)
    ensures Faithful(Baselines(db, keys), k, c) && Baselines(db, keys).rows == db.rows
  {
    BaselineReplays(db, keys, k);
    hide Baselines, Replay;
    if k in db.rows && c in db.rows[k] {
      assert c in Snapshot(k, db.rows[k]);
    }
  }

  /** Every entry of a baseline says that what came before it is missing. */
  lemma {:induction false} BaselinesSayHistoryIsMissing(db: DB, keys: seq<Key>, i: nat)
    requires |db.log| <= i < |Baselines(db, keys).log|
    ensures var e := Baselines(db, keys).log[i]; e.missing && e.kind == Baseline && e.cause == "observed-baseline" && e.key in keys
    ensures Baselines(db, keys).log[..|db.log|] == db.log
    decreases |keys|
  {
    hide Snapshot;
    if keys != [] {
      var before := Baselines(db, keys[..|keys| - 1]);
      if i < |before.log| {
        BaselinesSayHistoryIsMissing(db, keys[..|keys| - 1], i);
      } else {
        BaselinesOnlyAppend(db, keys[..|keys| - 1]);
        BaselinesOnlyAppend(db, keys);
      }
      assert keys == keys[..|keys| - 1] + [keys[|keys| - 1]];
    }
    BaselinesOnlyAppend(db, keys);
  }

  lemma {:induction false} BaselinesOnlyAppend(db: DB, keys: seq<Key>)
    ensures db.log <= Baselines(db, keys).log
    decreases |keys|
  {
    hide Snapshot;
    if keys != [] {
      BaselinesOnlyAppend(db, keys[..|keys| - 1]);
    }
  }

  lemma {:induction false} BaselineReplays(db: DB, keys: seq<Key>, k: Key)
    requires db.log == []
    ensures Baselines(db, keys).rows == db.rows
    ensures Replay(Baselines(db, keys).log, k) == if k in keys && k in db.rows then Snapshot(k, db.rows[k]) else map[]
    decreases |keys|
  {
    hide Snapshot, Appended;
    if keys != [] {
      var before, last := keys[..|keys| - 1], keys[|keys| - 1];
      BaselineReplays(db, before, k);
      assert keys == before + [last];
      if last in db.rows {
        ReplayAppended(Baselines(db, before).log, last, Baseline, "observed-baseline", Snapshot(last, db.rows[last]), true, k);
      }
      hide Replay;
      if k in db.rows {
        assert Snapshot(k, db.rows[k]) + Snapshot(k, db.rows[k]) == Snapshot(k, db.rows[k]);
        assert map[] + Snapshot(k, db.rows[k]) == Snapshot(k, db.rows[k]);
      }
    }
  }

  /** From a baseline on, over any run: the whole promise for a column in one statement. */
  lemma HistoryReplaysToTheRow(db: DB, keys: seq<Key>, steps: seq<Step>, k: Key, c: Column)
    requires db.log == [] && Mirrored(k.entity, c) && (k in db.rows ==> k in keys)
    requires forall i :: 0 <= i < |steps| ==> WrittenInside(steps[i], k, c)
    ensures Faithful(ExecAll(Baselines(db, keys), steps), k, c)
  {
    hide Faithful, WrittenInside, Mirrored, ExecAll;
    BaselineIsFaithful(db, keys, k, c);
    StepsKeepFaithful(Baselines(db, keys), steps, k, c);
  }

  // ---- what is recorded, and what is not ----

  /** A block without nested blocks of its row appends one entry if a mirrored column of the row moved, and nothing otherwise. */
  lemma ChangeAppendsExactlyWhatMoved(db: DB, k: Key, kind: Kind, cause: string, writes: seq<Step>)
    requires forall i :: 0 <= i < |writes| ==> writes[i].Raw?
    ensures var after := ExecAll(db, writes);
            var d := Exec(db, Change(k, kind, cause, writes, false));
            && d.rows == after.rows
            && (d.log == db.log <==> k !in after.rows || Unmoved(k, RowAt(db, k), after.rows[k]))
            && (d.log != db.log ==> |d.log| == |db.log| + 1 && d.log[..|db.log|] == db.log
                                    && IsEntryOf(d.log[|db.log|], k, kind, cause, RowAt(db, k), RowAt(after, k)))
  {
    RawWritesLogNothing(db, writes);
    var after := ExecAll(db, writes);
    hide ExecAll;
    if k in after.rows {
      UnmovedIsEmptyDiff(k, RowAt(db, k), after.rows[k]);
    }
  }

  /** The entry names the cause, and holds the new value of every mirrored column that moved and of no other. */
  ghost predicate IsEntryOf(e: Entry, k: Key, kind: Kind, cause: string, before: Option<Row>, after: Option<Row>) {
    && after.Some? && e.key == k && e.cause == cause && !e.missing
    && e.kind == (if before.None? then Created else kind)
    && (forall c :: c in e.changed <==>
          c in after.value && c != "updated_at" && !(k.entity == WakeRow && c == "payload")
          && !(before.Some? && c in before.value && before.value[c] == after.value[c]))
    && (forall c :: c in e.changed ==> e.changed[c] == after.value[c])
  }

  ghost predicate Unmoved(k: Key, before: Option<Row>, after: Row) {
    forall c :: c in after && Mirrored(k.entity, c) ==> before.Some? && c in before.value && before.value[c] == after[c]
  }

  lemma UnmovedIsEmptyDiff(k: Key, before: Option<Row>, after: Row)
    ensures Unmoved(k, before, after) <==> Diff(k, before, after) == map[]
  {
    var d := Diff(k, before, after);
    assert forall c :: c in d <==>
                       c in after && Mirrored(k.entity, c) && !(before.Some? && c in before.value && before.value[c] == after[c]);
    hide Diff;
    if forall c :: c !in d {
      assert d == map[];
    }
  }

  lemma {:induction false} RawWritesLogNothing(db: DB, writes: seq<Step>)
    requires forall i :: 0 <= i < |writes| ==> writes[i].Raw?
    ensures ExecAll(db, writes).log == db.log
    decreases |writes|
  {
    if writes != [] {
      RawWritesLogNothing(db, writes[..|writes| - 1]);
    }
  }

  /** A block that raises leaves history and rows as they were, whatever was written or recorded inside it. */
  lemma AbortedChangeLeavesNothing(db: DB, before: seq<Step>, k: Key, kind: Kind, cause: string, body: seq<Step>)
    ensures ExecAll(db, before + [Change(k, kind, cause, body, true)]) == ExecAll(db, before)
  {
    assert (before + [Change(k, kind, cause, body, true)])[..|before|] == before;
  }

  /**
   A write past the history, as the loss path makes to the effect row, keeps the column faithful
   if and only if it wrote the value that was there.
   */
  lemma RawWriteIsForgotten(db: DB, k: Key, c: Column, v: Value)
    requires k in db.rows && c in db.rows[k] && Faithful(db, k, c)
    ensures Faithful(Exec(db, Raw(SetColumn(k, c, v))), k, c) <==> v == db.rows[k][c]
  {
    hide Replay;
  }

  // ---- how long a misreport lasts ----

  /** Column `c` of row `k`, if both are there. */
  function ColumnAt(db: DB, k: Key, c: Column): Option<Value> {
    if k in db.rows && c in db.rows[k] then Some(db.rows[k][c]) else None
  }

  /** A kept `change` block of `k` in the step left another value in `c` than it found. */
  ghost predicate Moves(db: DB, step: Step, k: Key, c: Column)
    decreases step
  {
    match step
    case Raw(_) => false
    case Change(x, _, _, body, raises) =>
      && !raises
      && (if x == k then
            ColumnAt(ExecAll(db, body), k, c).Some? && ColumnAt(ExecAll(db, body), k, c) != ColumnAt(db, k, c)
          else AnyMoves(db, body, k, c))
  }

  ghost predicate AnyMoves(db: DB, steps: seq<Step>, k: Key, c: Column)
    decreases steps
  {
    steps != [] && (AnyMoves(db, steps[..|steps| - 1], k, c)
                    || Moves(ExecAll(db, steps[..|steps| - 1]), steps[|steps| - 1], k, c))
  }

  /** What the entries say of the column is unchanged, and so is the column unless it is gone. */
  ghost predicate Still(a: DB, b: DB, k: Key, c: Column) {
    && (c in Replay(b.log, k) <==> c in Replay(a.log, k))
    && (c in Replay(a.log, k) ==> Replay(b.log, k)[c] == Replay(a.log, k)[c])
    && (ColumnAt(b, k, c).Some? ==> ColumnAt(b, k, c) == ColumnAt(a, k, c))
  }

  lemma RecordedMoves(db: DB, after: DB, k: Key, kind: Kind, cause: string, c: Column)
    requires Mirrored(k.entity, c) && Replay(after.log, k) == Replay(db.log, k)
    ensures var d := Recorded(db, after, k, kind, cause);
            if ColumnAt(after, k, c).Some? && ColumnAt(after, k, c) != ColumnAt(db, k, c) then Faithful(d, k, c)
            else Still(db, d, k, c)
  {
    hide Replay, Appended;
    if k in after.rows {
      ReplayAppended(after.log, k, if k in db.rows then kind else Created, cause,
                     Diff(k, RowAt(db, k), after.rows[k]), false, k);
    }
  }

  lemma {:induction false} StepMoves(db: DB, step: Step, k: Key, c: Column)
    requires Mirrored(k.entity, c) && WrittenInside(step, k, c)
    ensures if Moves(db, step, k, c) then Faithful(Exec(db, step), k, c) else Still(db, Exec(db, step), k, c)
    decreases step
  {
    hide Replay, Diff, Appended, Mirrored;
    match step
    case Raw(_) =>
    case Change(x, kind, cause, body, raises) =>
      if !raises {
        var after := ExecAll(db, body);
        if x == k {
          QuietSteps(db, body, k);
          hide Faithful, Still, ColumnAt;
          RecordedMoves(db, after, k, kind, cause, c);
        } else {
          StepsMove(db, body, k, c);
          if x in after.rows {
            ReplayAppended(after.log, x, if x in db.rows then kind else Created, cause,
                           Diff(x, RowAt(db, x), after.rows[x]), false, k);
          }
        }
      }
  }

  lemma {:induction false} StepsMove(db: DB, steps: seq<Step>, k: Key, c: Column)
    requires Mirrored(k.entity, c) && forall i :: 0 <= i < |steps| ==> WrittenInside(steps[i], k, c)
    ensures if AnyMoves(db, steps, k, c) then Faithful(ExecAll(db, steps), k, c) else Still(db, ExecAll(db, steps), k, c)
    decreases steps
  {
    hide Replay, Exec, Moves, WrittenInside, Mirrored;
    if steps != [] {
      var before, last := ExecAll(db, steps[..|steps| - 1]), steps[|steps| - 1];
      StepsMove(db, steps[..|steps| - 1], k, c);
      StepMoves(before, last, k, c);
      if AnyMoves(db, steps[..|steps| - 1], k, c) {
        StepKeepsFaithful(before, last, k, c);
      }
    }
  }

  /**
   A misreport, from a write past the history or from nested blocks, lasts: after any run that
   writes the column only inside blocks of its row, a column still there is replayed right if and
   only if one of those blocks has moved it.
   */
  lemma MisreportLastsUntilABlockMovesIt(db: DB, steps: seq<Step>, k: Key, c: Column)
    requires Mirrored(k.entity, c) && !Faithful(db, k, c)
    requires forall i :: 0 <= i < |steps| ==> WrittenInside(steps[i], k, c)
    requires ColumnAt(ExecAll(db, steps), k, c).Some?
    ensures Faithful(ExecAll(db, steps), k, c) <==> AnyMoves(db, steps, k, c)
  {
    hide Replay, ExecAll, WrittenInside, AnyMoves, Mirrored;
    StepsMove(db, steps, k, c);
  }

  /** A misreport by a write past the history lasts in the same way, over whatever run follows the write. */
  lemma RawWriteLastsUntilABlockMovesIt(db: DB, k: Key, c: Column, v: Value, steps: seq<Step>)
    requires Mirrored(k.entity, c) && Faithful(db, k, c) && ColumnAt(db, k, c).Some? && v != db.rows[k][c]
    requires forall i :: 0 <= i < |steps| ==> WrittenInside(steps[i], k, c)
    requires ColumnAt(ExecAll(Exec(db, Raw(SetColumn(k, c, v))), steps), k, c).Some?
    ensures var after := Exec(db, Raw(SetColumn(k, c, v)));
            Faithful(ExecAll(after, steps), k, c) <==> AnyMoves(after, steps, k, c)
  {
    hide ExecAll, WrittenInside, AnyMoves, Mirrored;
    RawWriteIsForgotten(db, k, c, v);
    MisreportLastsUntilABlockMovesIt(Exec(db, Raw(SetColumn(k, c, v))), steps, k, c);
  }

  // ---- blocks around blocks of the same row ----

  /**
   A block around an arbitrary body, blocks of its own row included: the column is replayed right
   afterwards if and only if it was not there before, or the block as a whole moved it, or the
   entries made inside already replay to it.
   */
  lemma OuterBlockReplaysExactlyWhen(db: DB, k: Key, kind: Kind, cause: string, body: seq<Step>, c: Column)
    requires Mirrored(k.entity, c) && ColumnAt(ExecAll(db, body), k, c).Some?
    ensures Faithful(Exec(db, Change(k, kind, cause, body, false)), k, c) <==>
              || ColumnAt(db, k, c) != ColumnAt(ExecAll(db, body), k, c)
              || Faithful(ExecAll(db, body), k, c)
  {
    hide Replay, Appended, ExecAll;
    var after := ExecAll(db, body);
    ReplayAppended(after.log, k, if k in db.rows then kind else Created, cause,
                   Diff(k, RowAt(db, k), after.rows[k]), false, k);
  }

  lemma RawStepsReplay(db: DB, writes: seq<Step>, k: Key)
    requires forall i :: 0 <= i < |writes| ==> writes[i].Raw?
    ensures Replay(ExecAll(db, writes).log, k) == Replay(db.log, k)
  {
    RawWritesLogNothing(db, writes);
  }

  /**
   One block inside another of the same row, with statements around and inside it. The column's
   values where the outer block begins, where the inner one begins and ends, and where the outer
   one ends decide: it is misreported exactly when the outer block leaves what it found, and the
   inner one left something else.
   */
  lemma NestedBlockMisreportsExactlyWhen(db: DB, k: Key, c: Column, first: seq<Step>, inner: seq<Step>, last: seq<Step>,
                                         kind: Kind, cause: string)
    requires Mirrored(k.entity, c) && Faithful(db, k, c)
    requires forall i :: 0 <= i < |first| ==> first[i].Raw?
    requires forall i :: 0 <= i < |inner| ==> inner[i].Raw?
    requires forall i :: 0 <= i < |last| ==> last[i].Raw?
    ensures var block := Change(k, kind, cause, inner, false);
            var begun := ExecAll(db, first);
            var ended := ExecAll(begun, inner);
            var left := ExecAll(ended, last);
            var v0, v1, v2, v3 := ColumnAt(db, k, c), ColumnAt(begun, k, c), ColumnAt(ended, k, c), ColumnAt(left, k, c);
            !Faithful(Exec(db, Change(k, kind, cause, first + [block] + last, false)), k, c) <==>
              v3.Some? && v3 == v0 && v2.Some? && v1 != v2 && v2 != v3
  {
    var block := Change(k, kind, cause, inner, false);
    var begun := ExecAll(db, first);
    var ended := ExecAll(begun, inner);
    var recorded := Exec(begun, block);
    RawStepsReplay(db, first, k);
    RawStepsReplay(begun, inner, k);
    RecordedMoves(begun, ended, k, kind, cause, c);
    assert recorded == Recorded(begun, ended, k, kind, cause) && recorded.rows == ended.rows;
    RawStepsReplay(recorded, last, k);
    RawStepsIgnoreLog(ended, recorded, last);
    ExecAround(db, first, block, last);
    hide Replay, ExecAll, Exec, Recorded, Mirrored;
    var after := ExecAll(recorded, last);
    if ColumnAt(after, k, c).Some? {
      OuterBlockReplaysExactlyWhen(db, k, kind, cause, first + [block] + last, c);
    } else {
      GoneIsFaithful(db, k, kind, cause, first + [block] + last, c);
    }
  }

  lemma GoneIsFaithful(db: DB, k: Key, kind: Kind, cause: string, body: seq<Step>, c: Column)
    requires ColumnAt(ExecAll(db, body), k, c).None?
    ensures Faithful(Exec(db, Change(k, kind, cause, body, false)), k, c)
  {
    hide Replay, Appended, ExecAll, Diff;
  }

  /** Statements write the same rows whatever the history holds. */
  lemma {:induction false} RawStepsIgnoreLog(a: DB, b: DB, writes: seq<Step>)
    requires a.rows == b.rows && forall i :: 0 <= i < |writes| ==> writes[i].Raw?
    ensures ExecAll(a, writes).rows == ExecAll(b, writes).rows
    decreases |writes|
  {
    hide Wrote;
    if writes != [] {
      RawStepsIgnoreLog(a, b, writes[..|writes| - 1]);
    }
  }

  lemma {:induction false} ExecJoin(db: DB, a: seq<Step>, b: seq<Step>)
    ensures ExecAll(db, a + b) == ExecAll(ExecAll(db, a), b)
    decreases |b|
  {
    hide Exec;
    if b == [] {
      assert a + b == a;
    } else {
      assert (a + b)[..|a + b| - 1] == a + b[..|b| - 1];
      ExecJoin(db, a, b[..|b| - 1]);
    }
  }

  lemma ExecAround(db: DB, first: seq<Step>, block: Step, last: seq<Step>)
    ensures ExecAll(db, first + [block] + last) == ExecAll(Exec(ExecAll(db, first), block), last)
  {
    hide Exec;
    ExecJoin(db, first + [block], last);
    ExecJoin(db, first, [block]);
    ExecOne(ExecAll(db, first), block);
  }

  /** The smallest such block: set inside the inner block and put back in the outer one. */
  lemma NestedBlocksMisreport(k: Key, c: Column, v: Value, u: Value) returns (db: DB, step: Step)
    requires Mirrored(k.entity, c) && u != v
    ensures Faithful(db, k, c) && step.Change? && step.key == k && !step.raises
    ensures !Faithful(Exec(db, step), k, c)
  {
    var made := Entry(k, Created, "made", map[c := v], false);
    db := DB(map[k := map[c := v]], [made]);
    var put, back := Raw(SetColumn(k, c, u)), Raw(SetColumn(k, c, v));
    step := Change(k, Transition, "edit", [] + [Change(k, Transition, "edit", [put], false)] + [back], false);
    assert Replay(db.log, k) == map[c := v] by {
      assert db.log == [] + [made];
      ReplaySnoc([], made, k);
    }
    ExecOne(db, put);
    ExecOne(ExecAll(db, [put]), back);
    assert ExecAll(db, []) == db;
    NestedBlockMisreportsExactlyWhen(db, k, c, [], [put], [back], Transition, "edit");
  }

  lemma ExecOne(db: DB, s: Step)
    ensures ExecAll(db, [s]) == Exec(db, s)
  {
    assert [s][..0] == [];
  }
}
