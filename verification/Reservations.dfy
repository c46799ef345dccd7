/**
 Batches of task reservations (`task_store.py`, `reserve_all`): one transaction that inserts the
 rows a batch still misses under one parent, or nothing.
 */
module Reservations {
  import opened Options

  /** `task_id(scope, key)`: the name-based UUID is read as injective. */
  datatype TaskId = TaskId(scope: string, key: string)

  datatype Row = Row(id: TaskId, parent: Option<TaskId>, childLimit: nat, spec: string)

  datatype Spec = Spec(key: string, children: int, text: string)

  datatype Reserved = Reserved(row: Row, inserted: bool)

  /** A refusal is a raised error: the transaction rolls back. */
  datatype Outcome = Granted(reserved: seq<Reserved>) | Refused

  datatype Filled = Filled(rows: seq<Row>, reserved: seq<Reserved>)

  function Find(rows: seq<Row>, id: TaskId): (r: Option<Row>)
    ensures r.Some? ==> r.value in rows && r.value.id == id
    ensures r.None? ==> forall row :: row in rows ==> row.id != id
  {
    if rows == [] then None
    else if rows[|rows| - 1].id == id then Some(rows[|rows| - 1])
    else Find(rows[..|rows| - 1], id)
  }

  function Children(rows: seq<Row>, p: TaskId): nat {
    if rows == [] then 0
    else Children(rows[..|rows| - 1], p) + if rows[|rows| - 1].parent == Some(p) then 1 else 0
  }

  function NewKeys(rows: seq<Row>, scope: string, specs: seq<Spec>): nat {
    if specs == [] then 0
    else NewKeys(rows, scope, specs[..|specs| - 1])
         + if Find(rows, TaskId(scope, specs[|specs| - 1].key)).None? then 1 else 0
  }

  predicate DistinctKeys(specs: seq<Spec>) {
    forall i, j :: 0 <= i < j < |specs| ==> specs[i].key != specs[j].key
  }

  function NewRow(scope: string, parent: Option<TaskId>, s: Spec): Row
    requires s.children >= 0
  {
    Row(TaskId(scope, s.key), parent, s.children, s.text)
  }

  /** One spec of the batch: found with its own text, inserted, or an error. */
  function FillOne(f: Filled, scope: string, parent: Option<TaskId>, s: Spec): Option<Filled> {
    match Find(f.rows, TaskId(scope, s.key))
    case Some(row) => if row.spec == s.text then Some(Filled(f.rows, f.reserved + [Reserved(row, false)])) else None
    case None =>
      if s.children < 0 then None
      else
        var row := NewRow(scope, parent, s);
        Some(Filled(f.rows + [row], f.reserved + [Reserved(row, true)]))
  }

  function Fill(rows: seq<Row>, scope: string, parent: Option<TaskId>, specs: seq<Spec>): Option<Filled> {
    if specs == [] then Some(Filled(rows, []))
    else
      match Fill(rows, scope, parent, specs[..|specs| - 1])
      case None => None
      case Some(f) => FillOne(f, scope, parent, specs[|specs| - 1])
  }

  predicate Admitted(rows: seq<Row>, scope: string, parent: Option<TaskId>, specs: seq<Spec>) {
    parent.Some? ==>
      var p := Find(rows, parent.value);
      p.Some? && Children(rows, parent.value) + NewKeys(rows, scope, specs) <= p.value.childLimit
  }

  function ReserveAll(rows: seq<Row>, scope: string, parent: Option<TaskId>, specs: seq<Spec>): (Outcome, seq<Row>) {
    if specs == [] then (Granted([]), rows)
    else if !DistinctKeys(specs) || !Admitted(rows, scope, parent, specs) then (Refused, rows)
    else
      match Fill(rows, scope, parent, specs)
      case None => (Refused, rows)
      case Some(f) => (Granted(f.reserved), f.rows)
  }

  class Store {
    var rows: seq<Row>

    constructor ()
      ensures rows == []
    {
      rows := [];
    }

    method CountNewKeys(scope: string, specs: seq<Spec>) returns (n: nat)
      ensures n == NewKeys(rows, scope, specs)
    {
      n := 0;
      var i := 0;
      while i < |specs|
        invariant 0 <= i <= |specs|
        invariant n == NewKeys(rows, scope, specs[..i])
      {
        assert specs[..i + 1][..i] == specs[..i];
        if Find(rows, TaskId(scope, specs[i].key)).None? {
          n := n + 1;
        }
        i := i + 1;
      }
      assert specs[..i] == specs;
    }

    method Reserve(scope: string, parent: Option<TaskId>, specs: seq<Spec>) returns (r: Outcome)
      modifies this
      ensures (r, rows) == ReserveAll(old(rows), scope, parent, specs)
    {
      hide Fill, FillOne, NewKeys, Children, Find;
      if specs == [] {
        return Granted([]);
      }
      if !DistinctKeys(specs) {
        return Refused;
      }
      if parent.Some? {
        var row := Find(rows, parent.value);
        if row.None? {
          return Refused;
        }
        var existing := Children(rows, parent.value);
        var added := CountNewKeys(scope, specs);
        if existing + added > row.value.childLimit {
          return Refused;
        }
      }
      r := InsertMissing(scope, parent, specs);
    }

    /** The transaction: rolled back at the first spec that cannot be had. */
    method InsertMissing(scope: string, parent: Option<TaskId>, specs: seq<Spec>) returns (r: Outcome)
      modifies this
      ensures match Fill(old(rows), scope, parent, specs)
              case None => r == Refused && rows == old(rows)
              case Some(f) => r == Granted(f.reserved) && rows == f.rows
    {
      hide Find, NewRow;
      var before := rows;
      var reserved: seq<Reserved> := [];
      var i := 0;
      while i < |specs|
        invariant 0 <= i <= |specs|
        invariant Fill(before, scope, parent, specs[..i]) == Some(Filled(rows, reserved))
      {
        assert specs[..i + 1][..i] == specs[..i];
        var s := specs[i];
        var row := Find(rows, TaskId(scope, s.key));
        if (row.Some? && row.value.spec != s.text) || (row.None? && s.children < 0) {
          rows := before;
          FillStops(before, scope, parent, specs, i + 1);
          return Refused;
        }
        if row.Some? {
          reserved := reserved + [Reserved(row.value, false)];
        } else {
          var made := NewRow(scope, parent, s);
          rows := rows + [made];
          reserved := reserved + [Reserved(made, true)];
        }
        i := i + 1;
      }
      assert specs[..i] == specs;
      r := Granted(reserved);
    }
  }

  lemma {:induction false} FillStops(rows: seq<Row>, scope: string, parent: Option<TaskId>, specs: seq<Spec>, n: nat)
    requires n <= |specs| && Fill(rows, scope, parent, specs[..n]).None?
    ensures Fill(rows, scope, parent, specs).None?
    decreases |specs| - n
  {
    hide FillOne;
    if n < |specs| {
      assert specs[..n + 1][..n] == specs[..n];
      FillStops(rows, scope, parent, specs, n + 1);
    } else {
      assert specs[..n] == specs;
    }
  }

  // ---- what every reachable store satisfies ----

  ghost predicate DistinctIds(rows: seq<Row>) {
    forall i, j :: 0 <= i < j < |rows| ==> rows[i].id != rows[j].id
  }

  /** Every parent was there before its child. */
  ghost predicate ParentsFirst(rows: seq<Row>) {
    forall i :: 0 <= i < |rows| && rows[i].parent.Some? ==> HasRow(rows[..i], rows[i].parent.value)
  }

  predicate HasRow(rows: seq<Row>, id: TaskId) {
    exists i :: 0 <= i < |rows| && rows[i].id == id
  }

  ghost predicate LimitsKept(rows: seq<Row>) {
    forall i :: 0 <= i < |rows| ==> Children(rows, rows[i].id) <= rows[i].childLimit
  }

  ghost predicate Inv(rows: seq<Row>) {
    DistinctIds(rows) && ParentsFirst(rows) && LimitsKept(rows)
  }

  lemma FindHas(rows: seq<Row>, id: TaskId)
    ensures Find(rows, id).Some? <==> HasRow(rows, id)
  {
    var r := Find(rows, id);
    hide Find;
    if r.Some? {
      var i :| 0 <= i < |rows| && rows[i] == r.value;
      assert rows[i].id == id;
    } else {
      forall i | 0 <= i < |rows| ensures rows[i].id != id {
        assert rows[i] in rows;
      }
    }
  }

  lemma FindOther(rows: seq<Row>, row: Row, id: TaskId)
    ensures Find(rows + [row], id) == if row.id == id then Some(row) else Find(rows, id)
  {
    assert (rows + [row])[..|rows|] == rows;
  }

  /** Appending a row under an existing parent. */
  lemma AppendKeeps(rows: seq<Row>, row: Row)
    requires DistinctIds(rows) && ParentsFirst(rows) && Find(rows, row.id).None?
    requires row.parent.Some? ==> HasRow(rows, row.parent.value)
    ensures DistinctIds(rows + [row]) && ParentsFirst(rows + [row])
  {
    hide Find, HasRow;
    var after := rows + [row];
    FindNone(rows, row.id);
    forall i | 0 <= i < |after| && after[i].parent.Some? ensures HasRow(after[..i], after[i].parent.value) {
      if i < |rows| {
        assert after[..i] == rows[..i];
      } else {
        assert after[..i] == rows;
      }
    }
  }

  lemma FindNone(rows: seq<Row>, id: TaskId)
    requires Find(rows, id).None?
    ensures forall i :: 0 <= i < |rows| ==> rows[i].id != id
  {
    var r := Find(rows, id);
    hide Find;
    assert forall i :: 0 <= i < |rows| ==> rows[i] in rows;
  }

  /** What a filled batch has done to the store: appended the missing rows, in order, under one parent. */
  ghost predicate FillMeans(rows: seq<Row>, scope: string, parent: Option<TaskId>, specs: seq<Spec>, f: Filled) {
    && rows <= f.rows && DistinctIds(f.rows) && ParentsFirst(f.rows)
    && |f.rows| == |rows| + NewKeys(rows, scope, specs)
    && (forall k :: |rows| <= k < |f.rows| ==> f.rows[k].parent == parent)
    && |f.reserved| == |specs|
    && (forall i :: 0 <= i < |specs| ==> Listed(rows, f.rows, scope, specs[i], f.reserved[i]))
    && OthersKept(rows, f.rows, scope, specs)
  }

  ghost predicate Listed(rows: seq<Row>, after: seq<Row>, scope: string, s: Spec, r: Reserved) {
    && r.row.id == TaskId(scope, s.key) && r.row.spec == s.text
    && Find(after, TaskId(scope, s.key)) == Some(r.row)
    && (r.inserted <==> Find(rows, TaskId(scope, s.key)).None?)
    && (r.inserted ==> r.row.childLimit == s.children)
  }

  ghost predicate OthersKept(rows: seq<Row>, after: seq<Row>, scope: string, specs: seq<Spec>) {
    forall id :: Elsewhere(id, scope, specs) ==> Find(after, id) == Find(rows, id)
  }

  predicate Elsewhere(id: TaskId, scope: string, specs: seq<Spec>) {
    forall i :: 0 <= i < |specs| ==> id != TaskId(scope, specs[i].key)
  }

  lemma NewKeysSnoc(rows: seq<Row>, scope: string, specs: seq<Spec>, s: Spec)
    ensures NewKeys(rows, scope, specs + [s]) ==
            NewKeys(rows, scope, specs) + if Find(rows, TaskId(scope, s.key)).None? then 1 else 0
  {
    hide Find;
    assert (specs + [s])[..|specs|] == specs;
  }

  lemma FillOneMeans(rows: seq<Row>, scope: string, parent: Option<TaskId>, specs: seq<Spec>, f: Filled, s: Spec)
    requires FillMeans(rows, scope, parent, specs, f)
    requires parent.Some? ==> HasRow(rows, parent.value)
    requires Elsewhere(TaskId(scope, s.key), scope, specs)
    requires FillOne(f, scope, parent, s).Some?
    ensures FillMeans(rows, scope, parent, specs + [s], FillOne(f, scope, parent, s).value)
  {
    hide NewKeys, Find, HasRow, DistinctIds, ParentsFirst, Elsewhere, Listed;
    NewKeysSnoc(rows, scope, specs, s);
    var id := TaskId(scope, s.key);
    assert Find(f.rows, id) == Find(rows, id);
    ElsewhereSnoc(scope, specs, s);
    if Find(f.rows, id).None? {
      var row := NewRow(scope, parent, s);
      if parent.Some? {
        PrefixHas(rows, f.rows, parent.value);
      }
      AppendKeeps(f.rows, row);
      InsertLists(rows, scope, specs, f, row);
      FoundIsListed(rows, f.rows + [row], scope, s, Reserved(row, true));
    } else {
      FoundIsListed(rows, f.rows, scope, s, Reserved(Find(f.rows, id).value, false));
    }
  }

  lemma ElsewhereSnoc(scope: string, specs: seq<Spec>, s: Spec)
    ensures forall id :: Elsewhere(id, scope, specs + [s]) <==> Elsewhere(id, scope, specs) && id != TaskId(scope, s.key)
  {
    forall id ensures Elsewhere(id, scope, specs + [s]) <==> Elsewhere(id, scope, specs) && id != TaskId(scope, s.key) {
      var all := specs + [s];
      assert all[|specs|] == s && forall i :: 0 <= i < |specs| ==> all[i] == specs[i];
    }
  }

  lemma FoundIsListed(rows: seq<Row>, after: seq<Row>, scope: string, s: Spec, r: Reserved)
    requires r.row.id == TaskId(scope, s.key) && r.row.spec == s.text && (r.inserted ==> r.row.childLimit == s.children)
    requires if r.inserted then Find(rows, r.row.id).None? && exists f: seq<Row> :: after == f + [r.row]
             else Find(rows, r.row.id).Some? && Find(after, r.row.id) == Some(r.row)
    ensures Listed(rows, after, scope, s, r)
  {
    if r.inserted {
      var f: seq<Row> :| after == f + [r.row];
      hide Find;
      FindOther(f, r.row, r.row.id);
    }
  }

  /** Appending a row under a new key leaves what was listed, and every other key, as it was. */
  lemma InsertLists(rows: seq<Row>, scope: string, specs: seq<Spec>, f: Filled, row: Row)
    requires |f.reserved| == |specs| && Elsewhere(row.id, scope, specs)
    requires forall i :: 0 <= i < |specs| ==> Listed(rows, f.rows, scope, specs[i], f.reserved[i])
    ensures forall i :: 0 <= i < |specs| ==> Listed(rows, f.rows + [row], scope, specs[i], f.reserved[i])
    ensures forall id :: id != row.id ==> Find(f.rows + [row], id) == Find(f.rows, id)
  {
    hide Find;
    forall id: TaskId ensures id != row.id ==> Find(f.rows + [row], id) == Find(f.rows, id) {
      FindOther(f.rows, row, id);
    }
    forall i | 0 <= i < |specs| ensures Listed(rows, f.rows + [row], scope, specs[i], f.reserved[i]) {
      assert row.id != TaskId(scope, specs[i].key);
    }
  }

  lemma PrefixHas(a: seq<Row>, b: seq<Row>, id: TaskId)
    requires a <= b && HasRow(a, id)
    ensures HasRow(b, id)
  {
    var i :| 0 <= i < |a| && a[i].id == id;
    assert b[i] == a[i];
  }

  lemma {:induction false} FillIsSound(rows: seq<Row>, scope: string, parent: Option<TaskId>, specs: seq<Spec>)
    requires DistinctIds(rows) && ParentsFirst(rows) && DistinctKeys(specs)
    requires parent.Some? ==> HasRow(rows, parent.value)
    requires Fill(rows, scope, parent, specs).Some?
    ensures FillMeans(rows, scope, parent, specs, Fill(rows, scope, parent, specs).value)
    decreases |specs|
  {
    hide FillMeans, FillOne, DistinctIds, ParentsFirst, HasRow;
    if specs == [] {
      FillNothing(rows, scope, parent);
    } else {
      var n := |specs| - 1;
      FillIsSound(rows, scope, parent, specs[..n]);
      FillOneMeans(rows, scope, parent, specs[..n], Fill(rows, scope, parent, specs[..n]).value, specs[n]);
      assert specs[..n] + [specs[n]] == specs;
    }
  }

  lemma FillNothing(rows: seq<Row>, scope: string, parent: Option<TaskId>)
    requires DistinctIds(rows) && ParentsFirst(rows)
    ensures FillMeans(rows, scope, parent, [], Filled(rows, []))
  {
    hide Find, DistinctIds, ParentsFirst;
  }

  /** A spec the store cannot grant: its key is taken with other text, or its child limit is negative. */
  predicate Refusable(rows: seq<Row>, scope: string, s: Spec) {
    var row := Find(rows, TaskId(scope, s.key));
    if row.Some? then row.value.spec != s.text else s.children < 0
  }

  lemma {:induction false} FillFailsOnly(rows: seq<Row>, scope: string, parent: Option<TaskId>, specs: seq<Spec>)
    requires DistinctIds(rows) && ParentsFirst(rows) && DistinctKeys(specs)
    requires parent.Some? ==> HasRow(rows, parent.value)
    ensures Fill(rows, scope, parent, specs).None? <==> exists i :: 0 <= i < |specs| && Refusable(rows, scope, specs[i])
    decreases |specs|
  {
    hide DistinctIds, ParentsFirst, HasRow, Find;
    if specs != [] {
      var n := |specs| - 1;
      FillFailsOnly(rows, scope, parent, specs[..n]);
      assert specs == specs[..n] + [specs[n]];
      if Fill(rows, scope, parent, specs[..n]).Some? {
        FillIsSound(rows, scope, parent, specs[..n]);
        assert Find(Fill(rows, scope, parent, specs[..n]).value.rows, TaskId(scope, specs[n].key)) ==
               Find(rows, TaskId(scope, specs[n].key));
        assert forall i :: 0 <= i < n ==> !Refusable(rows, scope, specs[i]) by {
          assert forall i :: 0 <= i < n ==> specs[..n][i] == specs[i];
        }
      } else {
        var i :| 0 <= i < n && Refusable(rows, scope, specs[..n][i]);
        assert Refusable(rows, scope, specs[i]);
      }
    }
  }

  /** When a batch is refused, and that a refused batch leaves the store alone. */
  lemma BatchIsAllOrNothing(rows: seq<Row>, scope: string, parent: Option<TaskId>, specs: seq<Spec>)
    requires Inv(rows)
    ensures var (r, after) := ReserveAll(rows, scope, parent, specs);
            && (r.Refused? ==> after == rows)
            && (r.Granted? && specs != [] ==> FillMeans(rows, scope, parent, specs, Filled(after, r.reserved)))
            && (r.Refused? <==> specs != [] && (!DistinctKeys(specs) || !Admitted(rows, scope, parent, specs)
                                                || exists i :: 0 <= i < |specs| && Refusable(rows, scope, specs[i])))
  {
    hide DistinctIds, ParentsFirst, LimitsKept, FillMeans, Refusable, NewKeys, Children, Fill, Find;
    if specs != [] && DistinctKeys(specs) && Admitted(rows, scope, parent, specs) {
      if parent.Some? {
        FindHas(rows, parent.value);
      }
      FillFailsOnly(rows, scope, parent, specs);
      if Fill(rows, scope, parent, specs).Some? {
        FillIsSound(rows, scope, parent, specs);
      }
    }
  }

  lemma {:induction false} ChildrenOfAppended(rows: seq<Row>, after: seq<Row>, parent: Option<TaskId>, p: TaskId)
    requires rows <= after && forall k :: |rows| <= k < |after| ==> after[k].parent == parent
    ensures Children(after, p) == Children(rows, p) + if parent == Some(p) then |after| - |rows| else 0
    decreases |after|
  {
    if |after| > |rows| {
      ChildrenOfAppended(rows, after[..|after| - 1], parent, p);
    } else {
      assert after == rows;
    }
  }

  lemma {:induction false} NoChildrenYet(rows: seq<Row>, p: TaskId)
    requires ParentsFirst(rows) && !HasRow(rows, p)
    ensures Children(rows, p) == 0
    decreases |rows|
  {
    if rows != [] {
      var n := |rows| - 1;
      assert rows[..n] <= rows;
      assert ParentsFirst(rows[..n]) by {
        forall i | 0 <= i < n && rows[i].parent.Some? ensures HasRow(rows[..n][..i], rows[..n][i].parent.value) {
          assert rows[..n][..i] == rows[..i];
        }
      }
      if HasRow(rows[..n], p) {
        PrefixHas(rows[..n], rows, p);
      }
      NoChildrenYet(rows[..n], p);
      if rows[n].parent.Some? {
        assert HasRow(rows[..n], rows[n].parent.value);
        PrefixHas(rows[..n], rows, rows[n].parent.value);
      }
    }
  }

  lemma LimitsAreKept(rows: seq<Row>, scope: string, parent: Option<TaskId>, specs: seq<Spec>, f: Filled)
    requires Inv(rows) && FillMeans(rows, scope, parent, specs, f) && Admitted(rows, scope, parent, specs)
    ensures LimitsKept(f.rows)
  {
    hide Find, Children, NewKeys, HasRow;
    forall i | 0 <= i < |f.rows| ensures Children(f.rows, f.rows[i].id) <= f.rows[i].childLimit {
      ChildrenOfAppended(rows, f.rows, parent, f.rows[i].id);
      if i >= |rows| {
        NotThereYet(rows, f.rows, i);
        NoChildrenYet(rows, f.rows[i].id);
        if parent == Some(f.rows[i].id) {
          FindHas(rows, parent.value);
          assert false;
        }
      } else if parent == Some(f.rows[i].id) {
        assert rows[i] == f.rows[i];
        FindUnique(rows, i);
      }
    }
  }

  lemma NotThereYet(rows: seq<Row>, after: seq<Row>, i: nat)
    requires rows <= after && DistinctIds(after) && |rows| <= i < |after|
    ensures !HasRow(rows, after[i].id)
  {
    forall k | 0 <= k < |rows| ensures rows[k].id != after[i].id {
      assert after[k] == rows[k];
    }
  }

  lemma FindUnique(rows: seq<Row>, i: nat)
    requires DistinctIds(rows) && i < |rows|
    ensures Find(rows, rows[i].id) == Some(rows[i])
  {
    var r := Find(rows, rows[i].id);
    hide Find;
    assert rows[i] in rows;
    var k :| 0 <= k < |rows| && rows[k] == r.value;
    assert k == i;
  }

  lemma BatchKeepsInv(rows: seq<Row>, scope: string, parent: Option<TaskId>, specs: seq<Spec>)
    requires Inv(rows)
    ensures Inv(ReserveAll(rows, scope, parent, specs).1)
  {
    BatchIsAllOrNothing(rows, scope, parent, specs);
    hide DistinctIds, ParentsFirst, LimitsKept, NewKeys, Children, Fill, Find;
    var (r, after) := ReserveAll(rows, scope, parent, specs);
    if r.Granted? && specs != [] {
      LimitsAreKept(rows, scope, parent, specs, Filled(after, r.reserved));
    }
  }

  // ---- runs ----

  /** Batches, and the transitions that store another specification in a row. */
  datatype Op = Reserve(scope: string, parent: Option<TaskId>, specs: seq<Spec>) | Respecify(at: nat, text: string)

  function Apply(rows: seq<Row>, op: Op): seq<Row> {
    match op
    case Reserve(scope, parent, specs) => ReserveAll(rows, scope, parent, specs).1
    case Respecify(at, text) => if at < |rows| then rows[at := rows[at].(spec := text)] else rows
  }

  function Run(rows: seq<Row>, ops: seq<Op>): seq<Row> {
    if ops == [] then rows else Apply(Run(rows, ops[..|ops| - 1]), ops[|ops| - 1])
  }

  lemma {:induction false} ChildrenSameParents(a: seq<Row>, b: seq<Row>, p: TaskId)
    requires |a| == |b| && forall i :: 0 <= i < |a| ==> a[i].parent == b[i].parent
    ensures Children(a, p) == Children(b, p)
    decreases |a|
  {
    if a != [] {
      ChildrenSameParents(a[..|a| - 1], b[..|b| - 1], p);
    }
  }

  lemma RespecifyKeepsInv(rows: seq<Row>, at: nat, text: string)
    requires Inv(rows) && at < |rows|
    ensures Inv(rows[at := rows[at].(spec := text)])
  {
    var after := rows[at := rows[at].(spec := text)];
    hide Children;
    forall i | 0 <= i < |after| ensures Children(after, after[i].id) <= after[i].childLimit {
      ChildrenSameParents(rows, after, after[i].id);
      assert rows[i].id == after[i].id && rows[i].childLimit == after[i].childLimit;
    }
    forall i | 0 <= i < |after| && after[i].parent.Some? ensures HasRow(after[..i], after[i].parent.value) {
      assert HasRow(rows[..i], rows[i].parent.value);
      var k :| 0 <= k < i && rows[..i][k].id == rows[i].parent.value;
      assert after[..i][k].id == rows[i].parent.value;
    }
  }

  /** In every reachable store ids are distinct, no task has more children than its limit, and parents precede children. */
  lemma {:induction false} ReachableStores(ops: seq<Op>)
    ensures Inv(Run([], ops))
    decreases |ops|
  {
    hide Inv;
    if ops == [] {
      EmptyStore();
    } else {
      var before, op := Run([], ops[..|ops| - 1]), ops[|ops| - 1];
      ReachableStores(ops[..|ops| - 1]);
      match op
      case Reserve(scope, parent, specs) => BatchKeepsInv(before, scope, parent, specs);
      case Respecify(at, text) =>
        if at < |before| {
          RespecifyKeepsInv(before, at, text);
        }
    }
  }

  lemma EmptyStore()
    ensures Inv([])
  {
  }

  // ---- idempotence ----

  lemma {:induction false} KnownKeysAreNotNew(rows: seq<Row>, scope: string, specs: seq<Spec>)
    requires forall i :: 0 <= i < |specs| ==> Find(rows, TaskId(scope, specs[i].key)).Some?
    ensures NewKeys(rows, scope, specs) == 0
    decreases |specs|
  {
    hide Find;
    if specs != [] {
      KnownKeysAreNotNew(rows, scope, specs[..|specs| - 1]);
    }
  }

  /**
   In every reachable store, a batch whose rows all exist with the same text is granted again
   with every row found and none inserted, whoever inserted them and whatever ran in between.
   */
  lemma KnownBatchIsGrantedAgain(ops: seq<Op>, scope: string, parent: Option<TaskId>, specs: seq<Spec>)
    requires specs != [] && DistinctKeys(specs)
    requires parent.Some? ==> HasRow(Run([], ops), parent.value)
    requires forall i :: 0 <= i < |specs| ==>
               var row := Find(Run([], ops), TaskId(scope, specs[i].key)); row.Some? && row.value.spec == specs[i].text
    ensures var rows := Run([], ops);
            var (r, after) := ReserveAll(rows, scope, parent, specs);
            && r.Granted? && |r.reserved| == |specs| && after == rows
            && forall i :: 0 <= i < |specs| ==>
                 !r.reserved[i].inserted && Find(rows, TaskId(scope, specs[i].key)) == Some(r.reserved[i].row)
  {
    ReachableStores(ops);
    var rows := Run([], ops);
    hide Run, Find, Fill, NewKeys, Children, HasRow;
    KnownKeysAreNotNew(rows, scope, specs);
    if parent.Some? {
      FindHas(rows, parent.value);
      ParentHasRoom(rows, parent.value);
    }
    BatchIsAllOrNothing(rows, scope, parent, specs);
    var (r, after) := ReserveAll(rows, scope, parent, specs);
    assert forall i :: 0 <= i < |specs| ==> !Refusable(rows, scope, specs[i]);
    assert rows <= after && |after| == |rows|;
  }

  lemma ParentHasRoom(rows: seq<Row>, p: TaskId)
    requires Inv(rows) && Find(rows, p).Some?
    ensures Children(rows, p) <= Find(rows, p).value.childLimit
  {
    var row := Find(rows, p).value;
    hide Find, Children, DistinctIds, ParentsFirst;
    var i :| 0 <= i < |rows| && rows[i] == row;
  }

  /** Immediate repetition: a granted batch, asked for again, inserts nothing. */
  lemma BatchIsIdempotent(ops: seq<Op>, scope: string, parent: Option<TaskId>, specs: seq<Spec>)
    requires ReserveAll(Run([], ops), scope, parent, specs).0.Granted? && specs != []
    ensures var after := ReserveAll(Run([], ops), scope, parent, specs).1;
            var (again, same) := ReserveAll(after, scope, parent, specs);
            again.Granted? && same == after && |again.reserved| == |specs|
            && forall i :: 0 <= i < |specs| ==> !again.reserved[i].inserted
  {
    ReachableStores(ops);
    var rows := Run([], ops);
    var next := ops + [Reserve(scope, parent, specs)];
    assert next[..|ops|] == ops;
    assert Run([], next) == ReserveAll(rows, scope, parent, specs).1;
    hide Run, Find, Fill, NewKeys, Children;
    BatchIsAllOrNothing(rows, scope, parent, specs);
    var after := Run([], next);
    if parent.Some? {
      FindHas(rows, parent.value);
      PrefixHas(rows, after, parent.value);
    }
    hide HasRow;
    KnownBatchIsGrantedAgain(next, scope, parent, specs);
  }

  // ---- the forest ----

  /** `path` climbs from a row to its parent, to its parent's parent, and so on. */
  ghost predicate Climbs(rows: seq<Row>, path: seq<nat>) {
    && (forall n :: 0 <= n < |path| ==> path[n] < |rows|)
    && (forall n :: 0 <= n < |path| - 1 ==> rows[path[n]].parent == Some(rows[path[n + 1]].id))
  }

  lemma {:induction false} ClimbingGoesBack(rows: seq<Row>, path: seq<nat>)
    requires Inv(rows) && Climbs(rows, path) && |path| >= 2
    ensures path[|path| - 1] < path[0]
    decreases |path|
  {
    hide LimitsKept;
    ParentIsEarlier(rows, path[0], path[1]);
    if |path| > 2 {
      assert Climbs(rows, path[1..]);
      ClimbingGoesBack(rows, path[1..]);
    }
  }

  lemma ParentIsEarlier(rows: seq<Row>, child: nat, parent: nat)
    requires DistinctIds(rows) && ParentsFirst(rows) && child < |rows| && parent < |rows|
    requires rows[child].parent == Some(rows[parent].id)
    ensures parent < child
  {
    assert HasRow(rows[..child], rows[parent].id);
    var k :| 0 <= k < child && rows[..child][k].id == rows[parent].id;
    assert rows[k].id == rows[parent].id;
  }

  /** Parent links form a forest in every reachable store: no climb ever comes back to where it began. */
  lemma ParentLinksAreAForest(ops: seq<Op>, path: seq<nat>)
    requires |path| >= 2 && Climbs(Run([], ops), path)
    ensures path[0] != path[|path| - 1]
  {
    ReachableStores(ops);
    hide Run;
    ClimbingGoesBack(Run([], ops), path);
  }
}
