/**
 Whole runs of the wake outbox: children finish, cohorts are rescanned, pumps claim, render,
 persist, send and settle, leases expire and holders crash, in any order. No child event is
 lost, and no wake is told twice with different words.
 */
module WakeRuns {
  import opened Options
  import opened Wakes
  import T = TaskStore

  /** A message a pump is about to send, or has sent, for the claim it holds. */
  datatype Sending = Sending(held: Held, payload: Payload)

  /** The database, and what pumps have read from it. Nothing a pump learnt is ever forgotten. */
  datatype World = World(db: DB, held: set<Held>, rendered: set<Sending>, ready: set<Sending>, sent: set<Sending>)

  datatype Op =
    | Reserve(id: TaskId, parent: Option<TaskId>, maxAttempts: nat, childLimit: nat, spec: string)
    | Move(id: TaskId, step: T.Op)           // any transition of a row outside `finish_with_wake`
    | Finish(id: TaskId, target: T.State, result: Option<string>, version: Option<nat>, charge: bool, now: real)
    | Rescan(cohort: TaskId, now: real)
    | Tick(id: TaskId, finding: Option<T.Liveness>, over: bool, now: real, timeout: real)
    | Claim(wake: nat, now: real, seconds: real)
    | Render(h: Held, text: string)
    | PersistBytes(h: Held, payload: Payload)
    | Send(h: Held, payload: Payload)
    | Deliver(h: Held, payload: Payload)
    | Suppress(h: Held, reason: string)

  function Seen(tasks: map<TaskId, T.Task>, parent: TaskId): nat {
    if parent in tasks then tasks[parent].childEventSeq else 0
  }

  function Observed(t: T.Task, finding: Option<T.Liveness>, over: bool, now: real): T.Task {
    var u := if finding.Some? then T.RecordLiveness(t, finding.value, now) else t;
    if over then T.RecordOverBudget(u) else u
  }

  function ApplyDB(db: DB, op: Op): DB {
    match op
    case Reserve(id, parent, maxAttempts, childLimit, spec) =>
      if id in db.tasks then db
      else db.(tasks := db.tasks[id := T.Fresh(parent, maxAttempts, childLimit, spec)])
    case Move(id, step) => if id in db.tasks then db.(tasks := db.tasks[id := T.Apply(db.tasks[id], step)]) else db
    case Finish(id, target, result, version, charge, now) =>
      Else(FinishWithWake(db, id, target, result, version, charge, now), db)
    case Rescan(cohort, now) => RecordCohort(db, cohort, now)
    case Tick(id, finding, over, now, timeout) =>
      if id in db.tasks then
        RecordLiveness(db.(tasks := db.tasks[id := Observed(db.tasks[id], finding, over, now)]), id, now, timeout)
      else db
    case Claim(wake, now, seconds) => ClaimOne(db, wake, now, seconds)
    case PersistBytes(h, payload) => db.(wakes := Persist(db.wakes, h, payload))
    case Deliver(h, payload) => Settle(db, h, true, None, None)
    case Suppress(h, reason) => Settle(db, h, false, Some(reason), Some(Suppressed(reason)))
    case _ => db
  }

  /** What a pump must have done before it can take this step. */
  predicate Enabled(w: World, op: Op) {
    match op
    case Render(h, _) => h in w.held
    case PersistBytes(h, payload) => Sending(h, payload) in w.rendered
    case Send(h, payload) => Sending(h, payload) in w.ready
    case Deliver(h, payload) => Sending(h, payload) in w.sent
    case Suppress(h, _) => h in w.held
    case _ => true
  }

  function Learnt(w: World, op: Op): World {
    match op
    case Claim(wake, now, _) =>
      if wake < |w.db.wakes| && Claimable(w.db.wakes[wake], now) then
        w.(held := w.held + {Held(wake, w.db.nextToken, w.db.wakes[wake].parent, w.db.wakes[wake].eventSeq)})
      else w
    case Render(h, text) => w.(rendered := w.rendered + {Sending(h, Message(Seen(w.db.tasks, h.parent), text))})
    case PersistBytes(h, payload) =>
      if Holds(w.db.wakes, h) then
        w.(ready := w.ready + {Sending(h, Else(w.db.wakes[h.id].payload, payload))})
      else w
    case Send(h, payload) => w.(sent := w.sent + {Sending(h, payload)})
    case _ => w
  }

  function Apply(w: World, op: Op): World {
    if Enabled(w, op) then Learnt(w, op).(db := ApplyDB(w.db, op)) else w
  }

  function Run(w: World, ops: seq<Op>): World {
    if ops == [] then w else Apply(Run(w, ops[..|ops| - 1]), ops[|ops| - 1])
  }

  const START: World := World(DB(map[], [], 0), {}, {}, {}, {})

  /** A claim batch is the same as claiming its rows one step at a time. */
  function ClaimOps(n: nat, now: real, seconds: real): seq<Op> {
    if n == 0 then [] else ClaimOps(n - 1, now, seconds) + [Claim(n - 1, now, seconds)]
  }

  lemma {:induction false} BatchIsSteps(w: World, n: nat, now: real, seconds: real)
    ensures Run(w, ClaimOps(n, now, seconds)).db == ClaimFirst(w.db, n, now, seconds)
  {
    hide ClaimOne;
    if n > 0 {
      var before := ClaimOps(n - 1, now, seconds);
      BatchIsSteps(w, n - 1, now, seconds);
      assert ClaimOps(n, now, seconds)[..|before|] == before;
    }
  }

  // ---- what every step keeps ----

  /** How a row may change: its identity never, its bytes once, its token only upwards, and nothing once it is settled. */
  predicate Evolves(a: Wake, b: Wake) {
    && a.parent == b.parent && a.waitsFor == b.waitsFor && a.key == b.key && a.eventSeq == b.eventSeq
    && a.createdAt == b.createdAt
    && (a.payload.Some? ==> b.payload == a.payload)
    && (a.token.Some? ==> b.token.Some? && a.token.value <= b.token.value)
    && (!Live(a) ==> b == a)
  }

  ghost predicate RowsEvolve(a: seq<Wake>, b: seq<Wake>) {
    |a| <= |b| && forall i: nat :: i < |a| ==> Evolves(a[i], b[i])
  }

  ghost predicate TasksGrow(a: map<TaskId, T.Task>, b: map<TaskId, T.Task>) {
    forall p :: p in a ==> p in b && a[p].childEventSeq <= b[p].childEventSeq && a[p].parent == b[p].parent
                           && a[p].lastWokenSeq <= b[p].lastWokenSeq
  }

  ghost predicate Grows(a: DB, b: DB) {
    RowsEvolve(a.wakes, b.wakes) && TasksGrow(a.tasks, b.tasks) && a.nextToken <= b.nextToken
  }

  lemma EvolvesTransitive(a: Wake, b: Wake, c: Wake)
    requires Evolves(a, b) && Evolves(b, c)
    ensures Evolves(a, c)
  {
  }

  lemma GrowsTransitive(a: DB, b: DB, c: DB)
    requires Grows(a, b) && Grows(b, c)
    ensures Grows(a, c)
  {
    hide Evolves;
    forall i: nat | i < |a.wakes| ensures Evolves(a.wakes[i], c.wakes[i]) {
      EvolvesTransitive(a.wakes[i], b.wakes[i], c.wakes[i]);
    }
    TasksGrowTransitive(a.tasks, b.tasks, c.tasks);
  }

  lemma TasksGrowTransitive(a: map<TaskId, T.Task>, b: map<TaskId, T.Task>, c: map<TaskId, T.Task>)
    requires TasksGrow(a, b) && TasksGrow(b, c)
    ensures TasksGrow(a, c)
  {
  }

  predicate WakeOk(tasks: map<TaskId, T.Task>, nextToken: nat, w: Wake) {
    && (w.eventSeq.Some? ==> w.parent in tasks && 0 < w.eventSeq.value <= tasks[w.parent].childEventSeq)
    && (w.key.CohortKey? <==> w.eventSeq.Some?)
    && (w.key.CohortKey? ==> w.key == CohortKey(w.parent, w.waitsFor))
    && (w.state == Claimed ==> w.token.Some? && w.expires.Some?)
    && (w.token.Some? ==> w.token.value < nextToken)
    && (w.payload.Some? && w.state != Resolved ==> w.payload.value.Message?)
    && (w.payload.Some? && w.payload.value.Message? && w.eventSeq.Some? ==> w.eventSeq.value <= w.payload.value.seen)
    && (w.state == Delivered ==> w.payload.Some?)
  }

  predicate Heard(w: Wake, parent: TaskId) {
    w.state == Delivered && w.parent == parent && w.eventSeq.Some?
  }

  /** `n` is the largest event number a delivered cohort wake of `parent` carries, or zero. */
  ghost predicate IsWatermark(wakes: seq<Wake>, parent: TaskId, n: nat) {
    && (forall i: nat :: i < |wakes| && Heard(wakes[i], parent) ==> wakes[i].eventSeq.value <= n)
    && (n == 0 || exists i: nat :: i < |wakes| && Heard(wakes[i], parent) && wakes[i].eventSeq.value == n)
  }

  ghost predicate RowsOk(db: DB) {
    forall i: nat :: i < |db.wakes| ==> WakeOk(db.tasks, db.nextToken, db.wakes[i])
  }

  ghost predicate Watermarks(db: DB) {
    forall p :: p in db.tasks ==> IsWatermark(db.wakes, p, db.tasks[p].lastWokenSeq)
  }

  /** The partial unique index: one live row for each key. */
  ghost predicate LiveUnique(wakes: seq<Wake>) {
    forall i: nat, j: nat :: i < j < |wakes| && Live(wakes[i]) && Live(wakes[j]) ==> wakes[i].key != wakes[j].key
  }

  ghost predicate Inv(db: DB) {
    RowsOk(db) && Watermarks(db) && LiveUnique(db.wakes)
  }

  // ---- a change of tasks alone ----

  ghost predicate Unheard(a: map<TaskId, T.Task>, b: map<TaskId, T.Task>) {
    && TasksGrow(a, b)
    && (forall p :: p in a ==> p in b && b[p].lastWokenSeq == a[p].lastWokenSeq)
    && (forall p :: p in b && p !in a ==> b[p].lastWokenSeq == 0)
  }

  lemma NobodyHeard(db: DB, p: TaskId)
    requires RowsOk(db) && p !in db.tasks
    ensures IsWatermark(db.wakes, p, 0)
  {
    forall i: nat | i < |db.wakes| ensures !Heard(db.wakes[i], p) {
      assert WakeOk(db.tasks, db.nextToken, db.wakes[i]);
    }
  }

  lemma TasksKeep(db: DB, tasks: map<TaskId, T.Task>)
    requires Inv(db) && Unheard(db.tasks, tasks)
    ensures Inv(db.(tasks := tasks)) && Grows(db, db.(tasks := tasks))
  {
    var d := db.(tasks := tasks);
    forall i: nat | i < |d.wakes| ensures WakeOk(d.tasks, d.nextToken, d.wakes[i]) {
      assert WakeOk(db.tasks, db.nextToken, db.wakes[i]);
    }
    forall p | p in d.tasks ensures IsWatermark(d.wakes, p, d.tasks[p].lastWokenSeq) {
      if p !in db.tasks {
        NobodyHeard(db, p);
      }
    }
  }

  // ---- a new row ----

  lemma InsertKeeps(db: DB, w: Wake)
    requires Inv(db) && WakeOk(db.tasks, db.nextToken, w) && w.state == Pending
    ensures Inv(db.(wakes := Insert(db.wakes, w))) && Grows(db, db.(wakes := Insert(db.wakes, w)))
  {
    if !LiveKey(db.wakes, w.key) {
      AppendKeepsWatermarks(db, w);
      AppendKeepsRows(db, w);
      AppendKeepsUnique(db.wakes, w);
    }
  }

  lemma AppendKeepsRows(db: DB, w: Wake)
    requires RowsOk(db) && WakeOk(db.tasks, db.nextToken, w)
    ensures RowsOk(db.(wakes := db.wakes + [w])) && Grows(db, db.(wakes := db.wakes + [w]))
  {
    hide WakeOk;
  }

  lemma AppendKeepsUnique(wakes: seq<Wake>, w: Wake)
    requires LiveUnique(wakes) && !LiveKey(wakes, w.key)
    ensures LiveUnique(wakes + [w])
  {
  }

  lemma AppendKeepsWatermarks(db: DB, w: Wake)
    requires Watermarks(db) && w.state == Pending
    ensures Watermarks(db.(wakes := db.wakes + [w]))
  {
    forall p | p in db.tasks ensures IsWatermark(db.wakes + [w], p, db.tasks[p].lastWokenSeq) {
      assert IsWatermark(db.wakes, p, db.tasks[p].lastWokenSeq);
      AppendKeepsWatermark(db.wakes, w, p, db.tasks[p].lastWokenSeq);
    }
  }

  lemma AppendKeepsWatermark(wakes: seq<Wake>, w: Wake, p: TaskId, n: nat)
    requires IsWatermark(wakes, p, n) && w.state == Pending
    ensures IsWatermark(wakes + [w], p, n)
  {
    if n != 0 {
      var i: nat :| i < |wakes| && Heard(wakes[i], p) && wakes[i].eventSeq.value == n;
      assert (wakes + [w])[i] == wakes[i];
    }
  }

  // ---- a changed row ----

  lemma ChangeKeepsUnique(wakes: seq<Wake>, k: nat, v: Wake)
    requires LiveUnique(wakes) && k < |wakes| && Evolves(wakes[k], v)
    ensures LiveUnique(wakes[k := v]) && RowsEvolve(wakes, wakes[k := v])
  {
    forall i: nat | i < |wakes| ensures Evolves(wakes[i], wakes[k := v][i]) {
    }
    hide Evolves;
    assert Live(v) ==> Live(wakes[k]) by {
      EvolvesBasics(wakes[k], v);
    }
    EvolvesBasics(wakes[k], v);
  }

  lemma EvolvesBasics(a: Wake, b: Wake)
    requires Evolves(a, b)
    ensures a.key == b.key && (Live(b) ==> Live(a)) && a.parent == b.parent && a.eventSeq == b.eventSeq
  {
  }

  /** A row that is not settled as delivered leaves every watermark as it was. */
  lemma ChangeKeepsWatermark(wakes: seq<Wake>, k: nat, v: Wake, p: TaskId, n: nat)
    requires IsWatermark(wakes, p, n) && k < |wakes| && Live(wakes[k]) && v.state != Delivered
    ensures IsWatermark(wakes[k := v], p, n)
  {
    if n != 0 {
      var i: nat :| i < |wakes| && Heard(wakes[i], p) && wakes[i].eventSeq.value == n;
      assert wakes[k := v][i] == wakes[i];
    }
  }

  lemma ChangeKeeps(db: DB, k: nat, v: Wake, token: nat)
    requires Inv(db) && k < |db.wakes| && Live(db.wakes[k]) && Evolves(db.wakes[k], v)
    requires v.state != Delivered && db.nextToken <= token && WakeOk(db.tasks, token, v)
    ensures Inv(db.(wakes := db.wakes[k := v], nextToken := token))
    ensures Grows(db, db.(wakes := db.wakes[k := v], nextToken := token))
  {
    var d := db.(wakes := db.wakes[k := v], nextToken := token);
    ChangeKeepsUnique(db.wakes, k, v);
    ChangeKeepsRows(db, k, v, token);
    hide WakeOk, Evolves, IsWatermark;
    forall p | p in d.tasks ensures IsWatermark(d.wakes, p, d.tasks[p].lastWokenSeq) {
      ChangeKeepsWatermark(db.wakes, k, v, p, db.tasks[p].lastWokenSeq);
    }
  }

  lemma ChangeKeepsRows(db: DB, k: nat, v: Wake, token: nat)
    requires RowsOk(db) && k < |db.wakes| && db.nextToken <= token && WakeOk(db.tasks, token, v)
    ensures RowsOk(db.(wakes := db.wakes[k := v], nextToken := token))
  {
    var d := db.(wakes := db.wakes[k := v], nextToken := token);
    forall i: nat | i < |d.wakes| ensures WakeOk(d.tasks, token, d.wakes[i]) {
      assert WakeOk(db.tasks, db.nextToken, db.wakes[i]);
    }
  }

  // ---- a delivered row ----

  function Later(w: Wake, parent: TaskId, n: nat): nat {
    if Heard(w, parent) && n < w.eventSeq.value then w.eventSeq.value else n
  }

  lemma DeliveryMovesWatermark(wakes: seq<Wake>, k: nat, v: Wake, p: TaskId, n: nat)
    requires IsWatermark(wakes, p, n) && k < |wakes| && Live(wakes[k])
    ensures IsWatermark(wakes[k := v], p, Later(v, p, n))
  {
    var after := wakes[k := v];
    forall i: nat | i < |after| && Heard(after[i], p) ensures after[i].eventSeq.value <= Later(v, p, n) {
      if i != k {
        assert Heard(wakes[i], p);
      }
    }
    if Later(v, p, n) == n && n != 0 {
      var i: nat :| i < |wakes| && Heard(wakes[i], p) && wakes[i].eventSeq.value == n;
      assert after[i] == wakes[i];
    } else if n != Later(v, p, n) {
      assert after[k] == v;
    }
  }

  predicate SnapshotOf(h: Held, wakes: seq<Wake>) {
    h.id < |wakes| && wakes[h.id].parent == h.parent && wakes[h.id].eventSeq == h.eventSeq
  }

  lemma DeliverKeepsRow(db: DB, h: Held)
    requires RowsOk(db) && Holds(db.wakes, h) && SnapshotOf(h, db.wakes) && db.wakes[h.id].payload.Some?
    ensures var v := SettledRow(db.wakes[h.id], Delivered, None, None);
            Evolves(db.wakes[h.id], v) && WakeOk(db.tasks, db.nextToken, v) && v.state == Delivered
            && v.parent == h.parent && v.eventSeq == h.eventSeq
    ensures h.eventSeq.Some? ==> h.parent in db.tasks
  {
    assert WakeOk(db.tasks, db.nextToken, db.wakes[h.id]);
  }

  /** Settling as the two writes it is: the row, then the parent's watermark. */
  lemma DeliverIsTwoWrites(db: DB, h: Held)
    requires Holds(db.wakes, h)
    requires h.eventSeq.Some? ==> h.parent in db.tasks
    ensures var d := Settle(db, h, true, None, None);
            && d.wakes == db.wakes[h.id := SettledRow(db.wakes[h.id], Delivered, None, None)]
            && d.nextToken == db.nextToken && d.tasks.Keys == db.tasks.Keys
            && (forall p :: p in db.tasks ==> p in d.tasks && d.tasks[p].childEventSeq == db.tasks[p].childEventSeq
                                              && d.tasks[p].parent == db.tasks[p].parent
                                              && d.tasks[p].lastWokenSeq ==
                                                 if h.eventSeq.Some? && h.parent == p && db.tasks[p].lastWokenSeq < h.eventSeq.value
                                                 then h.eventSeq.value else db.tasks[p].lastWokenSeq)
  {
  }

  lemma SameCounters(db: DB, tasks: map<TaskId, T.Task>)
    requires RowsOk(db)
    requires forall p :: p in db.tasks ==> p in tasks && tasks[p].childEventSeq == db.tasks[p].childEventSeq
    ensures RowsOk(db.(tasks := tasks))
  {
    forall i: nat | i < |db.wakes| ensures WakeOk(tasks, db.nextToken, db.(tasks := tasks).wakes[i]) {
      assert WakeOk(db.tasks, db.nextToken, db.wakes[i]);
    }
  }

  lemma DeliverGrows(db: DB, h: Held)
    requires RowsOk(db) && Holds(db.wakes, h) && SnapshotOf(h, db.wakes) && db.wakes[h.id].payload.Some?
    ensures Grows(db, Settle(db, h, true, None, None))
  {
    var v := SettledRow(db.wakes[h.id], Delivered, None, None);
    DeliverKeepsRow(db, h);
    DeliverIsTwoWrites(db, h);
    hide Evolves, WakeOk, RowsOk, Settle, SettledRow;
    forall i: nat | i < |db.wakes| ensures Evolves(db.wakes[i], db.wakes[h.id := v][i]) {
      if i != h.id {
        EvolvesReflexive(db.wakes[i]);
      }
    }
  }

  lemma EvolvesReflexive(w: Wake)
    ensures Evolves(w, w)
  {
  }

  lemma DeliverKeepsRows(db: DB, h: Held)
    requires RowsOk(db) && Holds(db.wakes, h) && SnapshotOf(h, db.wakes) && db.wakes[h.id].payload.Some?
    ensures RowsOk(Settle(db, h, true, None, None))
  {
    var v := SettledRow(db.wakes[h.id], Delivered, None, None);
    var d := Settle(db, h, true, None, None);
    DeliverKeepsRow(db, h);
    DeliverIsTwoWrites(db, h);
    hide Evolves, WakeOk, Settle, Holds, SettledRow;
    ChangeKeepsRows(db, h.id, v, db.nextToken);
    SameCounters(db.(wakes := db.wakes[h.id := v]), d.tasks);
    assert d == db.(wakes := db.wakes[h.id := v]).(tasks := d.tasks);
  }

  lemma DeliverMovesWatermarks(db: DB, h: Held)
    requires RowsOk(db) && Watermarks(db)
    requires Holds(db.wakes, h) && SnapshotOf(h, db.wakes) && db.wakes[h.id].payload.Some?
    ensures Watermarks(Settle(db, h, true, None, None))
  {
    var v := SettledRow(db.wakes[h.id], Delivered, None, None);
    var d := Settle(db, h, true, None, None);
    DeliverKeepsRow(db, h);
    DeliverIsTwoWrites(db, h);
    assert Live(db.wakes[h.id]);
    hide Evolves, IsWatermark, WakeOk, RowsOk, Settle, Holds, SettledRow;
    forall p | p in d.tasks ensures IsWatermark(d.wakes, p, d.tasks[p].lastWokenSeq) {
      DeliveryMovesWatermark(db.wakes, h.id, v, p, db.tasks[p].lastWokenSeq);
    }
  }

  lemma DeliverKeeps(db: DB, h: Held)
    requires Inv(db) && Holds(db.wakes, h) && SnapshotOf(h, db.wakes) && db.wakes[h.id].payload.Some?
    ensures Inv(Settle(db, h, true, None, None)) && Grows(db, Settle(db, h, true, None, None))
  {
    DeliverGrows(db, h);
    DeliverKeepsRows(db, h);
    DeliverMovesWatermarks(db, h);
    DeliverKeepsRow(db, h);
    DeliverIsTwoWrites(db, h);
    hide RowsOk, Watermarks, Grows, Settle, Holds, Evolves, WakeOk, RowsEvolve, SettledRow;
    ChangeKeepsUnique(db.wakes, h.id, SettledRow(db.wakes[h.id], Delivered, None, None));
  }

  // ---- the other steps ----

  lemma GrowsReflexive(db: DB)
    ensures Grows(db, db)
  {
  }

  lemma ClaimKeeps(db: DB, id: nat, now: real, seconds: real)
    requires Inv(db)
    ensures Inv(ClaimOne(db, id, now, seconds)) && Grows(db, ClaimOne(db, id, now, seconds))
  {
    if id < |db.wakes| && Claimable(db.wakes[id], now) {
      var v := db.wakes[id].(state := Claimed, expires := Some(now + seconds), token := Some(db.nextToken));
      assert WakeOk(db.tasks, db.nextToken, db.wakes[id]);
      ChangeKeeps(db, id, v, db.nextToken + 1);
    } else {
      GrowsReflexive(db);
    }
  }

  lemma PersistKeeps(db: DB, h: Held, payload: Payload)
    requires Inv(db) && SnapshotOf(h, db.wakes) && payload.Message?
    requires h.eventSeq.Some? ==> h.eventSeq.value <= payload.seen
    ensures Inv(db.(wakes := Persist(db.wakes, h, payload))) && Grows(db, db.(wakes := Persist(db.wakes, h, payload)))
  {
    if Holds(db.wakes, h) {
      var v := db.wakes[h.id].(payload := Coalesce(db.wakes[h.id].payload, Some(payload)));
      assert WakeOk(db.tasks, db.nextToken, db.wakes[h.id]);
      ChangeKeeps(db, h.id, v, db.nextToken);
    } else {
      GrowsReflexive(db);
    }
  }

  lemma SuppressKeeps(db: DB, h: Held, reason: string)
    requires Inv(db)
    ensures var d := Settle(db, h, false, Some(reason), Some(Suppressed(reason))); Inv(d) && Grows(db, d)
  {
    if Holds(db.wakes, h) {
      var v := SettledRow(db.wakes[h.id], Resolved, Some(reason), Some(Suppressed(reason)));
      assert WakeOk(db.tasks, db.nextToken, db.wakes[h.id]);
      ChangeKeeps(db, h.id, v, db.nextToken);
    } else {
      GrowsReflexive(db);
    }
  }

  lemma {:induction false} InsertAllKeeps(db: DB, parent: TaskId, ps: seq<Predicate>, event: nat, now: real)
    requires Inv(db) && parent in db.tasks && 0 < event <= db.tasks[parent].childEventSeq
    ensures var d := db.(wakes := InsertAll(db.wakes, parent, ps, event, now)); Inv(d) && Grows(db, d)
    decreases |ps|
  {
    hide Inv, Grows, Insert;
    if ps == [] {
      GrowsReflexive(db);
    } else {
      var before := db.(wakes := InsertAll(db.wakes, parent, ps[..|ps| - 1], event, now));
      InsertAllKeeps(db, parent, ps[..|ps| - 1], event, now);
      InsertKeeps(before, CohortWake(parent, ps[|ps| - 1], event, now));
      GrowsTransitive(db, before, db.(wakes := InsertAll(db.wakes, parent, ps, event, now)));
    }
  }

  lemma RescanKeeps(db: DB, parent: TaskId, now: real)
    requires Inv(db)
    ensures Inv(RecordCohort(db, parent, now)) && Grows(db, RecordCohort(db, parent, now))
    ensures RecordCohort(db, parent, now).tasks == db.tasks
  {
    hide Inv, Grows, InsertAll;
    if Behind(db, parent) {
      InsertAllKeeps(db, parent, SatisfiedPredicates(db.tasks, parent), db.tasks[parent].childEventSeq, now);
    } else {
      GrowsReflexive(db);
    }
  }

  lemma ArmOnceKeeps(db: DB, parent: TaskId, key: Key, now: real)
    requires Inv(db) && key.EpisodeKey?
    ensures Inv(ArmOnce(db, parent, key, now)) && Grows(db, ArmOnce(db, parent, key, now))
    ensures ArmOnce(db, parent, key, now).tasks == db.tasks
  {
    hide Inv, Grows;
    if ToldKey(db.wakes, key) {
      GrowsReflexive(db);
    } else {
      InsertKeeps(db, EpisodeWake(parent, key, now));
    }
  }

  lemma StallCountIsUnheard(tasks: map<TaskId, T.Task>, child: TaskId, now: real)
    requires child in tasks
    ensures Unheard(tasks, tasks[child := tasks[child].(livenessWakes := tasks[child].livenessWakes + 1, since := Some(now))])
  {
  }

  lemma ArmStallKeeps(db: DB, child: TaskId, parent: TaskId, now: real, timeout: real)
    requires Inv(db) && child in db.tasks
    ensures Inv(ArmStall(db, child, parent, now, timeout)) && Grows(db, ArmStall(db, child, parent, now, timeout))
  {
    hide Inv, Grows, Unheard, LiveKey, StallDue;
    var t := db.tasks[child];
    var key := StallKey(child, t, now, timeout);
    var d := ArmStall(db, child, parent, now, timeout);
    if !StallDue(t, now, timeout) || LiveKey(db.wakes, key) {
      GrowsReflexive(db);
    } else {
      InsertKeeps(db, EpisodeWake(parent, key, now));
      var e := db.(wakes := Insert(db.wakes, EpisodeWake(parent, key, now)));
      StallCountIsUnheard(db.tasks, child, now);
      TasksKeep(e, d.tasks);
      assert d == e.(tasks := d.tasks);
      GrowsTransitive(db, e, d);
    }
  }

  lemma LivenessKeeps(db: DB, child: TaskId, now: real, timeout: real)
    requires Inv(db)
    ensures Inv(RecordLiveness(db, child, now, timeout)) && Grows(db, RecordLiveness(db, child, now, timeout))
  {
    hide Inv, Grows, ArmOnce, ArmStall;
    GrowsReflexive(db);
    if child in db.tasks && db.tasks[child].parent.Some? {
      var t, parent := db.tasks[child], db.tasks[child].parent.value;
      ArmOnceKeeps(db, parent, EpisodeKey(child, t.epoch, LostReason, 1, false), now);
      ArmStallKeeps(db, child, parent, now, timeout);
      var d := ArmStall(db, child, parent, now, timeout);
      ArmOnceKeeps(d, parent, EpisodeKey(child, t.epoch, OverBudgetReason, 1, false), now);
      GrowsTransitive(db, d, ArmOnce(d, parent, EpisodeKey(child, t.epoch, OverBudgetReason, 1, false), now));
    }
  }

  /** Replacing one row by one of the same identity is heard by nobody. */
  lemma RowKeeps(db: DB, id: TaskId, row: T.Task)
    requires Inv(db)
    requires if id in db.tasks then T.SameIdentity(db.tasks[id], row) else row.lastWokenSeq == 0
    ensures Inv(db.(tasks := db.tasks[id := row])) && Grows(db, db.(tasks := db.tasks[id := row]))
  {
    assert Unheard(db.tasks, db.tasks[id := row]);
    hide Inv, Grows, Unheard;
    TasksKeep(db, db.tasks[id := row]);
  }

  lemma BumpKeeps(db: DB, parent: TaskId)
    requires Inv(db)
    ensures var d := db.(tasks := Bumped(db.tasks, parent)); Inv(d) && Grows(db, d)
  {
    assert Unheard(db.tasks, Bumped(db.tasks, parent));
    hide Inv, Grows, Unheard;
    TasksKeep(db, Bumped(db.tasks, parent));
  }

  lemma AfterFinishKeeps(db: DB, id: TaskId, row: T.Task, now: real)
    requires Inv(db) && id in db.tasks && T.SameIdentity(db.tasks[id], row)
    ensures Inv(AfterFinish(db, id, row, now)) && Grows(db, AfterFinish(db, id, row, now))
  {
    hide Inv, Grows, Bumped, RecordCohort, RecordLiveness;
    var moved := db.(tasks := db.tasks[id := row]);
    RowKeeps(db, id, row);
    if row.parent.Some? {
      var p := row.parent.value;
      var bumped := moved.(tasks := Bumped(moved.tasks, p));
      BumpKeeps(moved, p);
      GrowsTransitive(db, moved, bumped);
      var armed := RecordCohort(bumped, p, now);
      RescanKeeps(bumped, p, now);
      GrowsTransitive(db, bumped, armed);
      LivenessKeeps(armed, id, now, PROGRESS_TIMEOUT);
      GrowsTransitive(db, armed, RecordLiveness(armed, id, now, PROGRESS_TIMEOUT));
    }
  }

  lemma FinishKeepsInv(db: DB, op: Op)
    requires Inv(db) && op.Finish?
    ensures Inv(ApplyDB(db, op)) && Grows(db, ApplyDB(db, op))
  {
    hide Inv, Grows, AfterFinish, T.Finish;
    GrowsReflexive(db);
    if op.id in db.tasks {
      T.FinishKeeps(db.tasks[op.id], op.target, op.result, op.version, op.charge);
      var row := T.Finish(db.tasks[op.id], op.target, op.result, op.version, op.charge);
      if row.Some? {
        AfterFinishKeeps(db, op.id, row.value, op.now);
      }
    }
  }

  lemma ObservedKeeps(t: T.Task, finding: Option<T.Liveness>, over: bool, now: real)
    ensures T.SameIdentity(t, Observed(t, finding, over, now))
  {
  }

  lemma TickKeeps(db: DB, op: Op)
    requires Inv(db) && op.Tick?
    ensures Inv(ApplyDB(db, op)) && Grows(db, ApplyDB(db, op))
  {
    hide Inv, Grows, RecordLiveness, Observed, T.SameIdentity;
    GrowsReflexive(db);
    if op.id in db.tasks {
      var row := Observed(db.tasks[op.id], op.finding, op.over, op.now);
      ObservedKeeps(db.tasks[op.id], op.finding, op.over, op.now);
      RowKeeps(db, op.id, row);
      var seen := db.(tasks := db.tasks[op.id := row]);
      LivenessKeeps(seen, op.id, op.now, op.timeout);
      GrowsTransitive(db, seen, RecordLiveness(seen, op.id, op.now, op.timeout));
    }
  }

  // ---- the whole world ----

  predicate HeldOk(db: DB, h: Held) {
    SnapshotOf(h, db.wakes) && db.wakes[h.id].token.Some? && h.token <= db.wakes[h.id].token.value
  }

  predicate Fresh(s: Sending) {
    s.payload.Message? && (s.held.eventSeq.Some? ==> s.held.eventSeq.value <= s.payload.seen)
  }

  predicate Frozen(db: DB, s: Sending) {
    s.held.id < |db.wakes| && db.wakes[s.held.id].payload == Some(s.payload)
  }

  ghost predicate WorldInv(w: World) {
    && Inv(w.db)
    && (forall h :: h in w.held ==> HeldOk(w.db, h))
    && (forall s :: s in w.rendered ==> s.held in w.held && Fresh(s))
    && (forall s :: s in w.ready ==> s.held in w.held && Frozen(w.db, s))
    && w.sent <= w.ready
  }

  lemma GrowsKeepsKnowledge(a: DB, b: DB)
    requires Grows(a, b)
    ensures forall h :: HeldOk(a, h) ==> HeldOk(b, h)
    ensures forall s :: Frozen(a, s) ==> Frozen(b, s)
  {
    forall h | HeldOk(a, h) ensures HeldOk(b, h) {
      assert Evolves(a.wakes[h.id], b.wakes[h.id]);
    }
    forall s | Frozen(a, s) ensures Frozen(b, s) {
      assert Evolves(a.wakes[s.held.id], b.wakes[s.held.id]);
    }
  }

  lemma MoveKeeps(db: DB, op: Op)
    requires Inv(db) && (op.Reserve? || op.Move?)
    ensures Inv(ApplyDB(db, op)) && Grows(db, ApplyDB(db, op))
  {
    hide Inv, Grows, T.Apply;
    GrowsReflexive(db);
    if op.Move? && op.id in db.tasks {
      T.StepKeepsLifecycle(db.tasks[op.id], op.step);
      RowKeeps(db, op.id, T.Apply(db.tasks[op.id], op.step));
    } else if op.Reserve? && op.id !in db.tasks {
      RowKeeps(db, op.id, T.Fresh(op.parent, op.maxAttempts, op.childLimit, op.spec));
    }
  }

  lemma DatabaseStep(w: World, op: Op)
    requires WorldInv(w) && Enabled(w, op)
    ensures Inv(ApplyDB(w.db, op)) && Grows(w.db, ApplyDB(w.db, op))
  {
    hide Inv, Grows, Settle, Persist, ClaimOne, RecordCohort, RecordLiveness, FinishWithWake, T.Apply;
    var db := w.db;
    GrowsReflexive(db);
    match op
    case Reserve(_, _, _, _, _) => MoveKeeps(db, op);
    case Move(_, _) => MoveKeeps(db, op);
    case Finish(_, _, _, _, _, _) => FinishKeepsInv(db, op);
    case Rescan(cohort, now) => RescanKeeps(db, cohort, now);
    case Tick(_, _, _, _, _) => TickKeeps(db, op);
    case Claim(wake, now, seconds) => ClaimKeeps(db, wake, now, seconds);
    case PersistBytes(h, payload) =>
      assert HeldOk(db, h) && Fresh(Sending(h, payload));
      PersistKeeps(db, h, payload);
    case Deliver(h, payload) => DeliverStep(w, h, payload);
    case Suppress(h, reason) => SuppressKeeps(db, h, reason);
    case _ =>
  }

  lemma DeliverStep(w: World, h: Held, payload: Payload)
    requires WorldInv(w) && Sending(h, payload) in w.sent
    ensures Inv(Settle(w.db, h, true, None, None)) && Grows(w.db, Settle(w.db, h, true, None, None))
  {
    hide Inv, Grows;
    assert HeldOk(w.db, h) && Frozen(w.db, Sending(h, payload));
    if Holds(w.db.wakes, h) {
      DeliverKeeps(w.db, h);
    } else {
      GrowsReflexive(w.db);
    }
  }

  lemma ClaimTeaches(db: DB, id: nat, now: real, seconds: real)
    requires Inv(db) && id < |db.wakes| && Claimable(db.wakes[id], now)
    ensures HeldOk(ClaimOne(db, id, now, seconds), Held(id, db.nextToken, db.wakes[id].parent, db.wakes[id].eventSeq))
  {
  }

  lemma PersistTeaches(db: DB, h: Held, payload: Payload)
    requires Holds(db.wakes, h)
    ensures Frozen(db.(wakes := Persist(db.wakes, h, payload)), Sending(h, Else(db.wakes[h.id].payload, payload)))
  {
  }

  lemma RenderTeaches(db: DB, h: Held, text: string)
    requires Inv(db) && HeldOk(db, h)
    ensures Fresh(Sending(h, Message(Seen(db.tasks, h.parent), text)))
  {
    assert WakeOk(db.tasks, db.nextToken, db.wakes[h.id]);
  }

  /** What a step teaches its pump is true of the database it leaves. */
  lemma StepTeaches(w: World, op: Op)
    requires WorldInv(w) && Enabled(w, op) && Grows(w.db, ApplyDB(w.db, op))
    ensures var d := ApplyDB(w.db, op);
            && (forall h :: h in Learnt(w, op).held && h !in w.held ==> HeldOk(d, h))
            && (forall s :: s in Learnt(w, op).rendered && s !in w.rendered ==> s.held in w.held && Fresh(s))
            && (forall s :: s in Learnt(w, op).ready && s !in w.ready ==> s.held in w.held && Frozen(d, s))
            && (forall s :: s in Learnt(w, op).sent && s !in w.sent ==> s in w.ready)
  {
    match op
    case Claim(wake, now, seconds) =>
      if wake < |w.db.wakes| && Claimable(w.db.wakes[wake], now) {
        ClaimTeaches(w.db, wake, now, seconds);
      }
      hide Inv, Grows, HeldOk, Claimable, ClaimOne;
    case PersistBytes(h, payload) =>
      if Holds(w.db.wakes, h) {
        PersistTeaches(w.db, h, payload);
      }
      hide Inv, Grows, Holds, Frozen, Persist;
    case Render(h, text) =>
      RenderTeaches(w.db, h, text);
      hide Inv, Grows, Fresh;
    case _ =>
  }

  lemma StepKeepsWorld(w: World, op: Op)
    requires WorldInv(w)
    ensures WorldInv(Apply(w, op)) && Grows(w.db, Apply(w, op).db)
  {
    hide Inv, Grows, ApplyDB, HeldOk, Fresh, Frozen, Enabled;
    if Enabled(w, op) {
      DatabaseStep(w, op);
      GrowsKeepsKnowledge(w.db, ApplyDB(w.db, op));
      StepTeaches(w, op);
      LearntOnlyAdds(w, op);
      hide Learnt;
    } else {
      GrowsReflexive(w.db);
    }
  }

  lemma LearntOnlyAdds(w: World, op: Op)
    ensures var u := Learnt(w, op);
            w.held <= u.held && w.rendered <= u.rendered && w.ready <= u.ready && w.sent <= u.sent
  {
    hide Claimable, Holds;
  }

  lemma {:induction false} RunKeepsWorld(w: World, ops: seq<Op>)
    requires WorldInv(w)
    ensures WorldInv(Run(w, ops)) && Grows(w.db, Run(w, ops).db)
    decreases |ops|
  {
    hide WorldInv, Grows, Apply;
    if ops == [] {
      GrowsReflexive(w.db);
    } else {
      var before := Run(w, ops[..|ops| - 1]);
      RunKeepsWorld(w, ops[..|ops| - 1]);
      StepKeepsWorld(before, ops[|ops| - 1]);
      GrowsTransitive(w.db, before.db, Run(w, ops).db);
    }
  }

  lemma StartIsOk()
    ensures WorldInv(START)
  {
  }

  // ---- no child event is lost ----

  ghost predicate AllArmed(tasks: map<TaskId, T.Task>, wakes: seq<Wake>, parent: TaskId) {
    forall p :: Satisfied(tasks, parent, p) ==> LiveKey(wakes, CohortKey(parent, p))
  }

  lemma InsertArms(wakes: seq<Wake>, w: Wake)
    requires Live(w)
    ensures LiveKey(Insert(wakes, w), w.key)
    ensures forall key :: LiveKey(wakes, key) ==> LiveKey(Insert(wakes, w), key)
    ensures forall key :: key != w.key && LiveKey(Insert(wakes, w), key) ==> LiveKey(wakes, key)
  {
    var after := Insert(wakes, w);
    if !LiveKey(wakes, w.key) {
      assert after[|wakes|] == w;
    }
    forall key | LiveKey(wakes, key) ensures LiveKey(after, key) {
      var i: nat :| i < |wakes| && wakes[i].key == key && Live(wakes[i]);
      assert after[i] == wakes[i];
    }
  }

  lemma {:induction false} InsertAllArms(wakes: seq<Wake>, parent: TaskId, ps: seq<Predicate>, event: nat, now: real)
    ensures var after := InsertAll(wakes, parent, ps, event, now);
            forall p :: LiveKey(after, CohortKey(parent, p)) <==> p in ps || LiveKey(wakes, CohortKey(parent, p))
    decreases |ps|
  {
    hide LiveKey, Insert;
    if ps != [] {
      InsertAllArms(wakes, parent, ps[..|ps| - 1], event, now);
      InsertArms(InsertAll(wakes, parent, ps[..|ps| - 1], event, now), CohortWake(parent, ps[|ps| - 1], event, now));
      assert ps == ps[..|ps| - 1] + [ps[|ps| - 1]];
    }
  }

  lemma {:induction false} InsertAllIdle(wakes: seq<Wake>, parent: TaskId, ps: seq<Predicate>, event: nat, now: real)
    requires forall p :: p in ps ==> LiveKey(wakes, CohortKey(parent, p))
    ensures InsertAll(wakes, parent, ps, event, now) == wakes
    decreases |ps|
  {
    hide LiveKey;
    if ps != [] {
      InsertAllIdle(wakes, parent, ps[..|ps| - 1], event, now);
      assert ps[|ps| - 1] in ps;
    }
  }

  lemma SatisfiedIsListed(tasks: map<TaskId, T.Task>, parent: TaskId, p: Predicate)
    ensures p in SatisfiedPredicates(tasks, parent) <==> Satisfied(tasks, parent, p)
  {
    if p == AnyChildBlocked {
    } else if p == AllChildrenTerminal {
    }
  }

  /**
   A rescan of a parent whose watermark is behind leaves a live wake for every predicate then
   satisfied and for no other that had none; a rescan of a cohort already told does nothing.
   */
  lemma RescanArmsExactlyWhenBehind(db: DB, parent: TaskId, now: real)
    ensures Behind(db, parent) ==>
              forall p :: LiveKey(RecordCohort(db, parent, now).wakes, CohortKey(parent, p)) <==>
                          Satisfied(db.tasks, parent, p) || LiveKey(db.wakes, CohortKey(parent, p))
    ensures !Behind(db, parent) ==> RecordCohort(db, parent, now) == db
    ensures RecordCohort(db, parent, now) == db <==> !Behind(db, parent) || AllArmed(db.tasks, db.wakes, parent)
  {
    hide LiveKey, Satisfied, SatisfiedPredicates;
    if Behind(db, parent) {
      var due := SatisfiedPredicates(db.tasks, parent);
      InsertAllArms(db.wakes, parent, due, db.tasks[parent].childEventSeq, now);
      forall p ensures p in due <==> Satisfied(db.tasks, parent, p) {
        SatisfiedIsListed(db.tasks, parent, p);
      }
      if AllArmed(db.tasks, db.wakes, parent) {
        InsertAllIdle(db.wakes, parent, due, db.tasks[parent].childEventSeq, now);
      }
    }
  }

  lemma FinishedIsNotActive(t: T.Task, target: T.State, result: Option<string>, version: Option<nat>, charge: bool)
    ensures var r := T.Finish(t, target, result, version, charge); r.Some? ==> r.value.state != T.Active
  {
  }

  lemma AfterFinishIsTwoRecords(db: DB, id: TaskId, row: T.Task, now: real)
    requires id in db.tasks && row.parent.Some? && row.parent.value in db.tasks && row.state != T.Active
    ensures var p := row.parent.value;
            var armed := RecordCohort(db.(tasks := Bumped(db.tasks[id := row], p)), p, now);
            var d := AfterFinish(db, id, row, now);
            d.tasks == armed.tasks && armed.wakes <= d.wakes
  {
    hide InsertAll, LiveKey, Insert, SatisfiedPredicates;
    var p := row.parent.value;
    var armed := RecordCohort(db.(tasks := Bumped(db.tasks[id := row], p)), p, now);
    hide RecordCohort, ReportsLoss;
    assert armed.tasks == Bumped(db.tasks[id := row], p) by {
      RecordCohortKeepsTasks(db.(tasks := Bumped(db.tasks[id := row], p)), p, now);
    }
    assert armed.tasks[id].state == row.state;
    LivenessOnlyAppends(armed, id, now, PROGRESS_TIMEOUT);
  }

  lemma RecordCohortKeepsTasks(db: DB, p: TaskId, now: real)
    ensures RecordCohort(db, p, now).tasks == db.tasks
  {
    hide InsertAll, SatisfiedPredicates;
  }

  lemma LivenessOnlyAppends(db: DB, child: TaskId, now: real, timeout: real)
    requires child in db.tasks && db.tasks[child].state != T.Active
    ensures db.wakes <= RecordLiveness(db, child, now, timeout).wakes
    ensures RecordLiveness(db, child, now, timeout).tasks == db.tasks
  {
    hide LiveKey, ToldKey, ReportsLoss;
  }

  lemma PrefixKeepsLive(a: seq<Wake>, b: seq<Wake>, key: Key)
    requires a <= b && LiveKey(a, key)
    ensures LiveKey(b, key)
  {
    var i: nat :| i < |a| && a[i].key == key && Live(a[i]);
    assert b[i] == a[i];
  }

  /** The commit of a child's transition leaves the event unheard and a live wake for each predicate then satisfied. */
  lemma FinishArms(w: World, op: Op)
    requires WorldInv(w) && op.Finish? && op.id in w.db.tasks
    requires FinishWithWake(w.db, op.id, op.target, op.result, op.version, op.charge, op.now).Some?
    requires w.db.tasks[op.id].parent.Some? && w.db.tasks[op.id].parent.value in w.db.tasks
    ensures var d, p := ApplyDB(w.db, op), w.db.tasks[op.id].parent.value;
            && p in d.tasks && d.tasks[p].childEventSeq == w.db.tasks[p].childEventSeq + 1
            && Behind(d, p) && AllArmed(d.tasks, d.wakes, p)
  {
    hide T.Finish, Inv, AfterFinish, RecordCohort, Satisfied, LiveKey;
    var p := w.db.tasks[op.id].parent.value;
    var row := T.Finish(w.db.tasks[op.id], op.target, op.result, op.version, op.charge).value;
    T.FinishKeeps(w.db.tasks[op.id], op.target, op.result, op.version, op.charge);
    FinishedIsNotActive(w.db.tasks[op.id], op.target, op.result, op.version, op.charge);
    AfterFinishIsTwoRecords(w.db, op.id, row, op.now);
    var bumped := w.db.(tasks := Bumped(w.db.tasks[op.id := row], p));
    RecordCohortKeepsTasks(bumped, p, op.now);
    RescanArmsExactlyWhenBehind(bumped, p, op.now);
    WatermarkBounded(w.db, p);
    var d := ApplyDB(w.db, op);
    forall q | Satisfied(d.tasks, p, q) ensures LiveKey(d.wakes, CohortKey(p, q)) {
      PrefixKeepsLive(RecordCohort(bumped, p, op.now).wakes, d.wakes, CohortKey(p, q));
    }
  }

  lemma WatermarkBounded(db: DB, p: TaskId)
    requires Inv(db) && p in db.tasks
    ensures IsWatermark(db.wakes, p, db.tasks[p].lastWokenSeq)
    ensures db.tasks[p].lastWokenSeq <= db.tasks[p].childEventSeq
  {
    var n := db.tasks[p].lastWokenSeq;
    if n != 0 {
      var i: nat :| i < |db.wakes| && Heard(db.wakes[i], p) && db.wakes[i].eventSeq.value == n;
      assert WakeOk(db.tasks, db.nextToken, db.wakes[i]);
    }
  }

  /** Over every run the watermark is the largest event number of the parent's delivered cohort wakes, or zero. */
  lemma WatermarkIsTheLatestDelivery(ops: seq<Op>, p: TaskId)
    requires p in Run(START, ops).db.tasks
    ensures var db := Run(START, ops).db;
            IsWatermark(db.wakes, p, db.tasks[p].lastWokenSeq) && db.tasks[p].lastWokenSeq <= db.tasks[p].childEventSeq
  {
    StartIsOk();
    RunKeepsWorld(START, ops);
    hide Run;
    WatermarkBounded(Run(START, ops).db, p);
  }

  /** A delivered wake of `p` whose message was rendered from a cohort that had already seen event `k`. */
  predicate TellsOf(w: Wake, p: TaskId, k: nat) {
    Heard(w, p) && k <= w.eventSeq.value && w.payload.Some? && w.payload.value.Message? && k <= w.payload.value.seen
  }

  /**
   Every event a parent's children ever committed is told by a delivered message rendered after
   it, or the next rescan leaves a live wake for every predicate the cohort then satisfies.
   */
  lemma NoChildEventIsLost(ops: seq<Op>, p: TaskId, k: nat, now: real)
    requires p in Run(START, ops).db.tasks && 1 <= k <= Run(START, ops).db.tasks[p].childEventSeq
    ensures var db := Run(START, ops).db;
            || (exists i: nat :: i < |db.wakes| && TellsOf(db.wakes[i], p, k))
            || (Behind(db, p) && AllArmed(db.tasks, RecordCohort(db, p, now).wakes, p))
  {
    StartIsOk();
    RunKeepsWorld(START, ops);
    hide Run, RecordCohort, Satisfied, LiveKey;
    var db := Run(START, ops).db;
    WatermarkBounded(db, p);
    RescanArmsExactlyWhenBehind(db, p, now);
    if k <= db.tasks[p].lastWokenSeq {
      var i: nat :| i < |db.wakes| && Heard(db.wakes[i], p) && db.wakes[i].eventSeq.value == db.tasks[p].lastWokenSeq;
      assert WakeOk(db.tasks, db.nextToken, db.wakes[i]);
      assert TellsOf(db.wakes[i], p, k);
    }
  }

  // ---- what a bare finish forgets ----

  /**
   A transition outside `finish_with_wake` writes no event, so the rescan that follows it arms a
   predicate it has just satisfied if and only if an earlier event is still unheard or a wake for
   that predicate is still live.
   */
  lemma BareMoveIsHeardOnlyWhenBehind(db: DB, id: TaskId, step: T.Op, parent: TaskId, p: Predicate, now: real)
    requires Satisfied(ApplyDB(db, Move(id, step)).tasks, parent, p)
    ensures LiveKey(RecordCohort(ApplyDB(db, Move(id, step)), parent, now).wakes, CohortKey(parent, p)) <==>
              Behind(db, parent) || LiveKey(db.wakes, CohortKey(parent, p))
  {
    hide Satisfied, LiveKey, RecordCohort, T.Apply;
    RescanArmsExactlyWhenBehind(ApplyDB(db, Move(id, step)), parent, now);
    if id in db.tasks {
      T.StepKeepsLifecycle(db.tasks[id], step);
    }
  }

  /** The expired reservation of an only child: its parent waits for a wake no rescan will ever arm. */
  lemma ExpiredReservationIsNeverTold(now: real) returns (ops: seq<Op>)
    ensures var db := Run(START, ops).db;
            && Satisfied(db.tasks, "manager", AllChildrenTerminal)
            && !LiveKey(RecordCohort(db, "manager", now).wakes, CohortKey("manager", AllChildrenTerminal))
  {
    var expire := Move("worker", T.Lose(Some(T.RESERVATION_EXPIRED), None));
    ops := [Reserve("manager", None, 2, 2, ""), Reserve("worker", Some("manager"), 2, 0, ""), expire];
    RunThree(START, ops[0], ops[1], ops[2]);
    var manager, worker := T.Fresh(None, 2, 2, ""), T.Fresh(Some("manager"), 2, 0, "");
    var a, b := map["manager" := manager], map["manager" := manager, "worker" := worker];
    assert Apply(START, ops[0]).db == DB(a, [], 0);
    assert Apply(Apply(START, ops[0]), ops[1]).db == DB(b, [], 0) by {
      assert a["worker" := worker] == b;
    }
    var lost := T.Apply(worker, expire.step);
    assert lost.state == T.Lost && lost.parent == Some("manager");
    var c := b["worker" := lost];
    assert Run(START, ops).db == DB(c, [], 0);
    assert IsChild(c, "worker", "manager");
    assert !Behind(DB(c, [], 0), "manager");
  }

  lemma RunThree(w: World, a: Op, b: Op, c: Op)
    ensures Run(w, [a, b, c]) == Apply(Apply(Apply(w, a), b), c)
  {
    hide Apply;
    assert [a, b, c][..2] == [a, b] && [a, b][..1] == [a] && [a][..0] == [];
    assert Run(w, [a]) == Apply(Run(w, []), a);
    assert Run(w, [a, b]) == Apply(Run(w, [a]), b);
  }

  // ---- claim fencing ----

  predicate ClaimStep(op: Op, h: Held) {
    match op
    case PersistBytes(g, _) => g == h
    case Deliver(g, _) => g == h
    case Suppress(g, _) => g == h
    case _ => false
  }

  /** Once a wake has been claimed again, or settled, nothing its old holder does changes the database, for ever. */
  lemma OldHoldersChangeNothing(w: World, h: Held, ops: seq<Op>, op: Op)
    requires WorldInv(w) && h.id < |w.db.wakes|
    requires !Live(w.db.wakes[h.id]) || (w.db.wakes[h.id].token.Some? && h.token < w.db.wakes[h.id].token.value)
    requires ClaimStep(op, h)
    ensures Apply(Run(w, ops), op).db == Run(w, ops).db
  {
    RunKeepsWorld(w, ops);
    hide Run;
    assert Evolves(w.db.wakes[h.id], Run(w, ops).db.wakes[h.id]);
  }

  predicate Settlement(op: Op, id: nat) {
    (op.Deliver? || op.Suppress?) && op.h.id == id
  }

  /**
   Delivered and resolved are absorbing, and at most one settlement of a wake ever succeeds:
   after one that did, the row never changes again and every later settlement is without effect.
   */
  lemma OneSettlementSucceeds(w: World, id: nat, op: Op, ops: seq<Op>, later: Op)
    requires WorldInv(w) && Settlement(op, id) && Enabled(w, op) && Holds(w.db.wakes, op.h)
    requires Settlement(later, id)
    ensures var u := Apply(w, op);
            var v := Run(u, ops);
            && id < |u.db.wakes| && !Live(u.db.wakes[id])
            && |u.db.wakes| <= |v.db.wakes| && v.db.wakes[id] == u.db.wakes[id]
            && Apply(v, later).db == v.db
  {
    var u := Apply(w, op);
    SettlementEnds(w, op);
    StepKeepsWorld(w, op);
    RunKeepsWorld(u, ops);
    SettledIsAbsorbing(u.db, Run(u, ops).db, id);
    hide Run, WorldInv, Grows, Evolves;
    assert !Holds(Run(u, ops).db.wakes, later.h);
  }

  lemma SettlementEnds(w: World, op: Op)
    requires (op.Deliver? || op.Suppress?) && Enabled(w, op) && Holds(w.db.wakes, op.h)
    ensures var u := Apply(w, op);
            op.h.id < |u.db.wakes| && u.db.wakes[op.h.id].state == if op.Deliver? then Delivered else Resolved
  {
  }

  lemma SettledIsAbsorbing(a: DB, b: DB, id: nat)
    requires Grows(a, b) && id < |a.wakes| && !Live(a.wakes[id])
    ensures |a.wakes| <= |b.wakes| && b.wakes[id] == a.wakes[id]
  {
    assert Evolves(a.wakes[id], b.wakes[id]);
  }

  /** Every external send of one wake, by any pump at any time, carries the same bytes; they are the row's. */
  lemma SendsOfAWakeAgree(ops: seq<Op>, s: Sending, t: Sending)
    requires s in Run(START, ops).sent && t in Run(START, ops).sent && s.held.id == t.held.id
    ensures s.payload == t.payload
    ensures s.held.id < |Run(START, ops).db.wakes|
    ensures Run(START, ops).db.wakes[s.held.id].payload == Some(s.payload)
  {
    StartIsOk();
    RunKeepsWorld(START, ops);
    hide Run;
    assert Frozen(Run(START, ops).db, s) && Frozen(Run(START, ops).db, t);
  }
}
