/**
 How often one silent child is reported (`wakes.py`, `task_store.py`): at most two stall wakes for
 each episode of each epoch over the whole run, the second at least the progress timeout after
 the first, however the child is relabelled, parked, recovered or replaced in between.
 */
module StallEpisodes {
  import opened Options
  import opened Wakes
  import opened WakeRuns
  import T = TaskStore

  predicate IsStall(key: Key, c: TaskId, epoch: nat, episode: nat) {
    key.EpisodeKey? && key.child == c && key.epoch == epoch && key.episode == episode && key.reason.SilentReason?
  }

  /** When the stall wakes of one episode were inserted, in order. */
  function StallTimes(wakes: seq<Wake>, c: TaskId, epoch: nat, episode: nat): seq<real> {
    if wakes == [] then []
    else
      var last := wakes[|wakes| - 1];
      StallTimes(wakes[..|wakes| - 1], c, epoch, episode)
      + (if IsStall(last.key, c, epoch, episode) then [last.createdAt] else [])
  }

  lemma TimesSnoc(wakes: seq<Wake>, w: Wake, c: TaskId, epoch: nat, episode: nat)
    ensures StallTimes(wakes + [w], c, epoch, episode) ==
            StallTimes(wakes, c, epoch, episode) + if IsStall(w.key, c, epoch, episode) then [w.createdAt] else []
  {
    assert (wakes + [w])[..|wakes|] == wakes;
  }

  predicate Later(a: T.Task, epoch: nat, episode: nat) {
    a.epoch < epoch || (a.epoch == epoch && a.episode < episode)
  }

  predicate Silent(t: T.Task) {
    T.StretchOf(t.liveness) == T.Silent
  }

  /** At most two reports, spaced by at least `gap`. */
  predicate Capped(times: seq<real>, gap: real) {
    |times| <= 2 && (|times| == 2 ==> times[1] - times[0] >= gap)
  }

  /** The open episode of a row: its counter covers what was inserted, and its clock dates the first report. */
  predicate OpenEpisode(t: T.Task, times: seq<real>) {
    && t.livenessWakes <= 2
    && (Silent(t) ==> |times| <= t.livenessWakes)
    && (Silent(t) && |times| == 1 && t.livenessWakes == 1 ==> t.since == Some(times[0]))
  }

  ghost predicate AllCapped(wakes: seq<Wake>, c: TaskId, gap: real) {
    forall e: nat, n: nat :: Capped(StallTimes(wakes, c, e, n), gap)
  }

  ghost predicate NoneLater(wakes: seq<Wake>, c: TaskId, t: T.Task) {
    forall e: nat, n: nat :: Later(t, e, n) ==> StallTimes(wakes, c, e, n) == []
  }

  ghost predicate NoStalls(wakes: seq<Wake>, c: TaskId) {
    forall e: nat, n: nat :: StallTimes(wakes, c, e, n) == []
  }

  ghost predicate EpisodeInv(db: DB, c: TaskId, gap: real) {
    && AllCapped(db.wakes, c, gap)
    && (c in db.tasks ==> NoneLater(db.wakes, c, db.tasks[c])
                          && OpenEpisode(db.tasks[c], StallTimes(db.wakes, c, db.tasks[c].epoch, db.tasks[c].episode)))
    && (c !in db.tasks ==> NoStalls(db.wakes, c))
  }

  // ---- steps that insert no stall wake for `c` ----

  /** How the row may move meanwhile: same episode, a new one, a recovery, or a later epoch. */
  predicate Drifts(t: T.Task, u: T.Task) {
    || (t.epoch < u.epoch && (u.livenessWakes == t.livenessWakes || u.livenessWakes == 0))
    || (t.epoch == u.epoch && u.episode == t.episode && T.StretchOf(t.liveness) == T.StretchOf(u.liveness)
        && u.livenessWakes == t.livenessWakes && u.since == t.since)
    || (t.epoch == u.epoch && u.episode == t.episode + 1 && u.livenessWakes == 0)
    || (t.epoch == u.epoch && u.episode == t.episode && T.StretchOf(u.liveness) == T.Working && u.livenessWakes == 0)
  }

  ghost predicate SameTimes(a: seq<Wake>, b: seq<Wake>, c: TaskId) {
    forall e: nat, n: nat :: StallTimes(b, c, e, n) == StallTimes(a, c, e, n)
  }

  ghost predicate Quiet(a: DB, b: DB, c: TaskId) {
    && SameTimes(a.wakes, b.wakes, c)
    && (c in a.tasks ==> c in b.tasks && Drifts(a.tasks[c], b.tasks[c]))
    && (c !in a.tasks && c in b.tasks ==> b.tasks[c].livenessWakes == 0)
  }

  lemma QuietKeeps(a: DB, b: DB, c: TaskId, gap: real)
    requires EpisodeInv(a, c, gap) && Quiet(a, b, c)
    ensures EpisodeInv(b, c, gap)
  {
    hide StallTimes;
    if c in b.tasks {
      var u := b.tasks[c];
      if c in a.tasks {
        var t := a.tasks[c];
        forall e: nat, n: nat | Later(u, e, n) ensures StallTimes(b.wakes, c, e, n) == [] {
          assert Later(t, e, n);
        }
        if (t.epoch, t.episode) != (u.epoch, u.episode) {
          assert Later(t, u.epoch, u.episode);
        }
      }
    }
  }

  lemma RefinedOpinion(t: T.Task, finding: T.Liveness, now: real)
    ensures Drifts(t, T.RecordLiveness(t, finding, now))
    ensures T.RecordLiveness(t, finding, now).epoch == t.epoch
  {
  }

  lemma FinishDrifts(t: T.Task, target: T.State, result: Option<string>, version: Option<nat>, charge: bool)
    ensures var r := T.Finish(t, target, result, version, charge); r.Some? ==> Drifts(t, r.value)
  {
    hide T.OrElse;
  }

  lemma AdvanceDrifts(t: T.Task, ended: bool, routable: Option<string>, pinned: bool, routed: bool)
    ensures var r := T.Advance(t, ended, routable, pinned, routed); r.Some? ==> Drifts(t, r.value)
  {
    hide T.Finish;
    FinishDrifts(t, T.Blocked, Some("replacement epoch ended"), None, true);
    FinishDrifts(t, T.Exhausted, routable, None, false);
    FinishDrifts(t, T.Blocked, Some(Else(routable, "")), None, true);
  }

  lemma MoveDrifts(t: T.Task, step: T.Op)
    ensures Drifts(t, T.Apply(t, step))
  {
    hide T.Finish, T.Advance, T.RecordLiveness;
    match step
    case Reject(reason) => FinishDrifts(t, T.Blocked, Some(reason), None, true);
    case Lose(loss, version) => FinishDrifts(t, T.Lost, loss, version, false);
    case ProcessFailed(reason) => FinishDrifts(t, T.Blocked, Some(reason), None, true);
    case AdvanceOutcome(ended, routable, pinned, routed) => AdvanceDrifts(t, ended, routable, pinned, routed);
    case Complete(summary) => FinishDrifts(t, T.Completed, summary, None, false);
    case Cancel => FinishDrifts(t, T.Cancelled, None, None, false);
    case BlockUncharged(reason) => FinishDrifts(t, T.Blocked, Some(reason), None, false);
    case ObserveLive(finding, now) => RefinedOpinion(t, finding, now);
    case _ =>
  }

  lemma SameTimesReflexive(wakes: seq<Wake>, c: TaskId)
    ensures SameTimes(wakes, wakes, c)
  {
  }

  predicate StallOf(key: Key, c: TaskId) {
    key.EpisodeKey? && key.child == c && key.reason.SilentReason?
  }

  lemma OtherInsertIsQuiet(wakes: seq<Wake>, w: Wake, c: TaskId)
    requires !StallOf(w.key, c)
    ensures SameTimes(wakes, Insert(wakes, w), c)
  {
    hide StallTimes, LiveKey;
    forall e: nat, n: nat ensures StallTimes(Insert(wakes, w), c, e, n) == StallTimes(wakes, c, e, n) {
      TimesSnoc(wakes, w, c, e, n);
    }
  }

  lemma {:induction false} CohortInsertsAreQuiet(wakes: seq<Wake>, parent: TaskId, ps: seq<Predicate>, event: nat, now: real, c: TaskId)
    ensures SameTimes(wakes, InsertAll(wakes, parent, ps, event, now), c)
    decreases |ps|
  {
    hide StallTimes, Insert;
    if ps != [] {
      CohortInsertsAreQuiet(wakes, parent, ps[..|ps| - 1], event, now, c);
      OtherInsertIsQuiet(InsertAll(wakes, parent, ps[..|ps| - 1], event, now), CohortWake(parent, ps[|ps| - 1], event, now), c);
    }
  }

  lemma RescanIsQuiet(db: DB, parent: TaskId, now: real, c: TaskId)
    ensures SameTimes(db.wakes, RecordCohort(db, parent, now).wakes, c)
  {
    hide StallTimes, InsertAll, SatisfiedPredicates;
    if Behind(db, parent) {
      CohortInsertsAreQuiet(db.wakes, parent, SatisfiedPredicates(db.tasks, parent), db.tasks[parent].childEventSeq, now, c);
    }
  }

  lemma ArmOnceIsQuiet(db: DB, parent: TaskId, key: Key, now: real, c: TaskId)
    requires key.EpisodeKey? && !key.reason.SilentReason?
    ensures SameTimes(db.wakes, ArmOnce(db, parent, key, now).wakes, c)
    ensures ArmOnce(db, parent, key, now).tasks == db.tasks
  {
    hide StallTimes, ToldKey, Insert;
    OtherInsertIsQuiet(db.wakes, EpisodeWake(parent, key, now), c);
  }

  // ---- the one step that does ----

  predicate Watched(db: DB, child: TaskId) {
    child in db.tasks && db.tasks[child].parent.Some? && db.tasks[child].state == T.Active
  }

  lemma ArmStallKeepsEpisodes(db: DB, child: TaskId, parent: TaskId, now: real, timeout: real, c: TaskId, gap: real)
    requires EpisodeInv(db, c, gap) && child in db.tasks && timeout >= gap
    ensures EpisodeInv(ArmStall(db, child, parent, now, timeout), c, gap)
  {
    hide StallTimes, LiveKey;
    var d := ArmStall(db, child, parent, now, timeout);
    if d != db {
      var t := db.tasks[child];
      var w := EpisodeWake(parent, StallKey(child, t, now, timeout), now);
      forall e: nat, n: nat
        ensures StallTimes(d.wakes, c, e, n) ==
                StallTimes(db.wakes, c, e, n) + if IsStall(w.key, c, e, n) then [now] else []
      {
        TimesSnoc(db.wakes, w, c, e, n);
      }
      hide ArmStall;
      if c == child {
        var times := StallTimes(db.wakes, c, t.epoch, t.episode);
        assert OpenEpisode(t, times) && StallDue(t, now, timeout);
        assert Capped(times + [now], gap) by {
          assert |times| <= 1;
          assert |times| == 1 ==> t.since == Some(times[0]);
        }
        assert d.tasks[c] == t.(livenessWakes := t.livenessWakes + 1, since := Some(now)) by {
          ArmStallRow(db, child, parent, now, timeout);
        }
        assert StallTimes(d.wakes, c, t.epoch, t.episode) == times + [now];
      } else {
        assert c in db.tasks ==> c in d.tasks && d.tasks[c] == db.tasks[c] by {
          ArmStallRow(db, child, parent, now, timeout);
        }
        assert c !in db.tasks ==> c !in d.tasks by {
          ArmStallRow(db, child, parent, now, timeout);
        }
      }
    }
  }

  lemma ArmStallRow(db: DB, child: TaskId, parent: TaskId, now: real, timeout: real)
    requires child in db.tasks
    ensures var d, t := ArmStall(db, child, parent, now, timeout), db.tasks[child];
            d == db || (d.tasks == db.tasks[child := t.(livenessWakes := t.livenessWakes + 1, since := Some(now))]
                        && StallDue(t, now, timeout))
  {
    hide LiveKey;
  }

  lemma ArmOnceKeepsEpisodes(db: DB, parent: TaskId, key: Key, now: real, c: TaskId, gap: real)
    requires EpisodeInv(db, c, gap) && key.EpisodeKey? && !key.reason.SilentReason?
    ensures EpisodeInv(ArmOnce(db, parent, key, now), c, gap)
  {
    hide EpisodeInv, ArmOnce, SameTimes;
    ArmOnceIsQuiet(db, parent, key, now, c);
    QuietKeeps(db, ArmOnce(db, parent, key, now), c, gap);
  }

  lemma LivenessKeepsEpisodes(db: DB, child: TaskId, now: real, timeout: real, c: TaskId, gap: real)
    requires EpisodeInv(db, c, gap)
    requires Watched(db, child) ==> timeout >= gap
    ensures EpisodeInv(RecordLiveness(db, child, now, timeout), c, gap)
  {
    hide EpisodeInv, ArmOnce, ArmStall, ReportsLoss;
    if child in db.tasks && db.tasks[child].parent.Some? {
      var t, parent := db.tasks[child], db.tasks[child].parent.value;
      ArmOnceKeepsEpisodes(db, parent, EpisodeKey(child, t.epoch, LostReason, 1, false), now, c, gap);
      if t.state == T.Active {
        ArmStallKeepsEpisodes(db, child, parent, now, timeout, c, gap);
        var d := ArmStall(db, child, parent, now, timeout);
        ArmOnceKeepsEpisodes(d, parent, EpisodeKey(child, t.epoch, OverBudgetReason, 1, false), now, c, gap);
      }
    }
  }

  // ---- every step ----

  lemma RowIsQuiet(db: DB, id: TaskId, row: T.Task, c: TaskId, gap: real)
    requires EpisodeInv(db, c, gap)
    requires if id in db.tasks then Drifts(db.tasks[id], row) else row.livenessWakes == 0
    ensures EpisodeInv(db.(tasks := db.tasks[id := row]), c, gap)
  {
    hide EpisodeInv;
    SameTimesReflexive(db.wakes, c);
    hide SameTimes;
    QuietKeeps(db, db.(tasks := db.tasks[id := row]), c, gap);
  }

  lemma RescanKeepsEpisodes(db: DB, parent: TaskId, now: real, c: TaskId, gap: real)
    requires EpisodeInv(db, c, gap)
    ensures EpisodeInv(RecordCohort(db, parent, now), c, gap)
  {
    hide EpisodeInv, RecordCohort, SameTimes;
    RescanIsQuiet(db, parent, now, c);
    RecordCohortKeepsTasks(db, parent, now);
    QuietKeeps(db, RecordCohort(db, parent, now), c, gap);
  }

  lemma BumpKeepsEpisodes(db: DB, parent: TaskId, c: TaskId, gap: real)
    requires EpisodeInv(db, c, gap)
    ensures EpisodeInv(db.(tasks := Bumped(db.tasks, parent)), c, gap)
  {
    hide EpisodeInv;
    if parent in db.tasks {
      RowIsQuiet(db, parent, db.tasks[parent].(childEventSeq := db.tasks[parent].childEventSeq + 1), c, gap);
    }
  }

  lemma BumpedKeepsStates(tasks: map<TaskId, T.Task>, parent: TaskId, id: TaskId)
    requires id in tasks
    ensures id in Bumped(tasks, parent) && Bumped(tasks, parent)[id].state == tasks[id].state
  {
  }

  lemma AfterFinishKeepsEpisodes(db: DB, id: TaskId, row: T.Task, now: real, c: TaskId, gap: real)
    requires EpisodeInv(db, c, gap) && id in db.tasks && Drifts(db.tasks[id], row) && row.state != T.Active
    ensures EpisodeInv(AfterFinish(db, id, row, now), c, gap)
  {
    hide EpisodeInv, RecordCohort, RecordLiveness, Bumped, Drifts;
    var moved := db.(tasks := db.tasks[id := row]);
    RowIsQuiet(db, id, row, c, gap);
    if row.parent.Some? {
      var p := row.parent.value;
      var bumped := moved.(tasks := Bumped(moved.tasks, p));
      BumpKeepsEpisodes(moved, p, c, gap);
      BumpedKeepsStates(moved.tasks, p, id);
      RescanKeepsEpisodes(bumped, p, now, c, gap);
      RecordCohortKeepsTasks(bumped, p, now);
      LivenessKeepsEpisodes(RecordCohort(bumped, p, now), id, now, PROGRESS_TIMEOUT, c, gap);
    }
  }

  lemma FinishKeepsEpisodes(db: DB, op: Op, c: TaskId, gap: real)
    requires EpisodeInv(db, c, gap) && op.Finish?
    ensures EpisodeInv(ApplyDB(db, op), c, gap)
  {
    hide EpisodeInv, AfterFinish, T.Finish, Drifts;
    if op.id in db.tasks {
      var t := db.tasks[op.id];
      FinishDrifts(t, op.target, op.result, op.version, op.charge);
      FinishedIsNotActive(t, op.target, op.result, op.version, op.charge);
      var row := T.Finish(t, op.target, op.result, op.version, op.charge);
      if row.Some? {
        AfterFinishKeepsEpisodes(db, op.id, row.value, op.now, c, gap);
      }
    }
  }

  lemma TickKeepsEpisodes(db: DB, op: Op, c: TaskId, gap: real)
    requires EpisodeInv(db, c, gap) && op.Tick? && op.timeout >= gap
    ensures EpisodeInv(ApplyDB(db, op), c, gap)
  {
    hide EpisodeInv, RecordLiveness, T.RecordLiveness, Drifts;
    if op.id in db.tasks {
      var t := db.tasks[op.id];
      var row := Observed(t, op.finding, op.over, op.now);
      assert Drifts(t, row) by {
        ObservedDrifts(t, op.finding, op.over, op.now);
      }
      RowIsQuiet(db, op.id, row, c, gap);
      LivenessKeepsEpisodes(db.(tasks := db.tasks[op.id := row]), op.id, op.now, op.timeout, c, gap);
    }
  }

  lemma ObservedDrifts(t: T.Task, finding: Option<T.Liveness>, over: bool, now: real)
    ensures Drifts(t, Observed(t, finding, over, now))
  {
    hide T.RecordLiveness;
    if finding.Some? {
      RefinedOpinion(t, finding.value, now);
    }
  }

  lemma SettleKeepsEpisodes(db: DB, op: Op, c: TaskId, gap: real)
    requires EpisodeInv(db, c, gap) && (op.Claim? || op.PersistBytes? || op.Deliver? || op.Suppress?)
    ensures EpisodeInv(ApplyDB(db, op), c, gap)
  {
    hide EpisodeInv, StallTimes;
    var d := ApplyDB(db, op);
    assert |d.wakes| == |db.wakes|;
    assert SameReports(db.wakes, d.wakes);
    assert c in db.tasks ==> c in d.tasks && Drifts(db.tasks[c], d.tasks[c]);
    hide ApplyDB, Drifts;
    forall e: nat, n: nat ensures StallTimes(d.wakes, c, e, n) == StallTimes(db.wakes, c, e, n) {
      TimesSameKeys(db.wakes, d.wakes, c, e, n);
    }
    QuietKeeps(db, d, c, gap);
  }

  ghost predicate SameReports(a: seq<Wake>, b: seq<Wake>) {
    |a| == |b| && forall i: nat :: i < |a| ==> a[i].key == b[i].key && a[i].createdAt == b[i].createdAt
  }

  lemma {:induction false} TimesSameKeys(a: seq<Wake>, b: seq<Wake>, c: TaskId, epoch: nat, episode: nat)
    requires SameReports(a, b)
    ensures StallTimes(a, c, epoch, episode) == StallTimes(b, c, epoch, episode)
    decreases |a|
  {
    if a != [] {
      TimesSameKeys(a[..|a| - 1], b[..|a| - 1], c, epoch, episode);
    }
  }

  lemma StepKeepsEpisodes(w: World, op: Op, c: TaskId, gap: real)
    requires EpisodeInv(w.db, c, gap) && (op.Tick? ==> op.timeout >= gap)
    ensures EpisodeInv(Apply(w, op).db, c, gap)
  {
    hide EpisodeInv, Drifts, T.Apply, RecordCohort, RecordLiveness, FinishWithWake, Settle, Persist, ClaimOne;
    match op
    case Reserve(id, parent, maxAttempts, childLimit, spec) =>
      if id !in w.db.tasks {
        RowIsQuiet(w.db, id, T.Fresh(parent, maxAttempts, childLimit, spec), c, gap);
      }
    case Move(id, step) =>
      if id in w.db.tasks {
        MoveDrifts(w.db.tasks[id], step);
        RowIsQuiet(w.db, id, T.Apply(w.db.tasks[id], step), c, gap);
      }
    case Finish(_, _, _, _, _, _) => FinishKeepsEpisodes(w.db, op, c, gap);
    case Rescan(cohort, now) => RescanKeepsEpisodes(w.db, cohort, now, c, gap);
    case Tick(_, _, _, _, _) => TickKeepsEpisodes(w.db, op, c, gap);
    case Render(_, _) =>
    case Send(_, _) =>
    case _ => SettleKeepsEpisodes(w.db, op, c, gap);
  }

  lemma {:induction false} RunKeepsEpisodes(ops: seq<Op>, c: TaskId, gap: real)
    requires forall i :: 0 <= i < |ops| && ops[i].Tick? ==> ops[i].timeout >= gap
    ensures EpisodeInv(Run(START, ops).db, c, gap)
    decreases |ops|
  {
    hide Apply;
    if ops != [] {
      RunKeepsEpisodes(ops[..|ops| - 1], c, gap);
      hide EpisodeInv;
      assert ops[|ops| - 1].Tick? ==> ops[|ops| - 1].timeout >= gap;
      StepKeepsEpisodes(Run(START, ops[..|ops| - 1]), ops[|ops| - 1], c, gap);
    }
  }

  /** Over the whole run, an episode of an epoch of a child is reported at most twice, the reports at least `gap` apart. */
  lemma AtMostTwoStallWakes(ops: seq<Op>, c: TaskId, epoch: nat, episode: nat, gap: real)
    requires forall i :: 0 <= i < |ops| && ops[i].Tick? ==> ops[i].timeout >= gap
    ensures Capped(StallTimes(Run(START, ops).db.wakes, c, epoch, episode), gap)
  {
    hide Run, StallTimes;
    RunKeepsEpisodes(ops, c, gap);
  }

  // ---- losses and budgets are told once ----

  predicate OneShot(key: Key) {
    key.EpisodeKey? && !key.reason.SilentReason?
  }

  /** No two wakes of one loss, or of one overrun budget, are both still told. */
  ghost predicate ToldOnce(wakes: seq<Wake>) {
    forall i: nat, j: nat ::
      i < j < |wakes| && OneShot(wakes[i].key) && wakes[i].key == wakes[j].key ==> !(Told(wakes[i]) && Told(wakes[j]))
  }

  lemma InsertKeepsToldOnce(wakes: seq<Wake>, w: Wake)
    requires ToldOnce(wakes) && (!OneShot(w.key) || !ToldKey(wakes, w.key))
    ensures ToldOnce(Insert(wakes, w))
  {
    hide LiveKey;
    var after := Insert(wakes, w);
    forall i: nat, j: nat | i < j < |after| && OneShot(after[i].key) && after[i].key == after[j].key
      ensures !(Told(after[i]) && Told(after[j]))
    {
      if j < |wakes| {
        assert after[i] == wakes[i] && after[j] == wakes[j];
      } else {
        assert after[i] == wakes[i] && after[j] == w;
      }
    }
  }

  lemma {:induction false} InsertAllKeepsToldOnce(wakes: seq<Wake>, parent: TaskId, ps: seq<Predicate>, event: nat, now: real)
    requires ToldOnce(wakes)
    ensures ToldOnce(InsertAll(wakes, parent, ps, event, now))
    decreases |ps|
  {
    hide ToldOnce, Insert, ToldKey;
    if ps != [] {
      InsertAllKeepsToldOnce(wakes, parent, ps[..|ps| - 1], event, now);
      InsertKeepsToldOnce(InsertAll(wakes, parent, ps[..|ps| - 1], event, now), CohortWake(parent, ps[|ps| - 1], event, now));
    }
  }

  lemma RescanKeepsToldOnce(db: DB, parent: TaskId, now: real)
    requires ToldOnce(db.wakes)
    ensures ToldOnce(RecordCohort(db, parent, now).wakes)
  {
    hide ToldOnce, InsertAll, SatisfiedPredicates;
    if Behind(db, parent) {
      InsertAllKeepsToldOnce(db.wakes, parent, SatisfiedPredicates(db.tasks, parent), db.tasks[parent].childEventSeq, now);
    }
  }

  lemma LivenessKeepsToldOnce(db: DB, child: TaskId, now: real, timeout: real)
    requires ToldOnce(db.wakes)
    ensures ToldOnce(RecordLiveness(db, child, now, timeout).wakes)
  {
    hide ToldOnce, ToldKey, Insert, ReportsLoss, StallDue;
    if child in db.tasks && db.tasks[child].parent.Some? {
      var t, parent := db.tasks[child], db.tasks[child].parent.value;
      ArmOnceKeepsToldOnce(db, parent, EpisodeKey(child, t.epoch, LostReason, 1, false), now);
      ArmStallKeepsToldOnce(db, child, parent, now, timeout);
      var d := ArmStall(db, child, parent, now, timeout);
      hide ArmStall, ArmOnce;
      ArmOnceKeepsToldOnce(d, parent, EpisodeKey(child, t.epoch, OverBudgetReason, 1, false), now);
    }
  }

  lemma ArmOnceKeepsToldOnce(db: DB, parent: TaskId, key: Key, now: real)
    requires ToldOnce(db.wakes) && key.EpisodeKey?
    ensures ToldOnce(ArmOnce(db, parent, key, now).wakes)
  {
    hide ToldOnce, ToldKey, Insert;
    if !ToldKey(db.wakes, key) {
      InsertKeepsToldOnce(db.wakes, EpisodeWake(parent, key, now));
    }
  }

  lemma ArmStallKeepsToldOnce(db: DB, child: TaskId, parent: TaskId, now: real, timeout: real)
    requires ToldOnce(db.wakes) && child in db.tasks
    ensures ToldOnce(ArmStall(db, child, parent, now, timeout).wakes)
  {
    hide ToldOnce, ToldKey, LiveKey, StallDue;
    InsertKeepsToldOnce(db.wakes, EpisodeWake(parent, StallKey(child, db.tasks[child], now, timeout), now));
  }

  lemma AfterFinishKeepsToldOnce(db: DB, id: TaskId, row: T.Task, now: real)
    requires ToldOnce(db.wakes) && id in db.tasks
    ensures ToldOnce(AfterFinish(db, id, row, now).wakes)
  {
    hide ToldOnce, RecordCohort, RecordLiveness, Bumped;
    var moved := db.(tasks := db.tasks[id := row]);
    if row.parent.Some? {
      var bumped := moved.(tasks := Bumped(moved.tasks, row.parent.value));
      RescanKeepsToldOnce(bumped, row.parent.value, now);
      LivenessKeepsToldOnce(RecordCohort(bumped, row.parent.value, now), id, now, PROGRESS_TIMEOUT);
    }
  }

  lemma SettleKeepsToldOnce(db: DB, op: Op)
    requires ToldOnce(db.wakes) && (op.Claim? || op.PersistBytes? || op.Deliver? || op.Suppress?)
    ensures ToldOnce(ApplyDB(db, op).wakes)
  {
    var d := ApplyDB(db, op);
    assert |d.wakes| == |db.wakes|;
    assert forall i: nat :: i < |d.wakes| ==> d.wakes[i].key == db.wakes[i].key && (Told(d.wakes[i]) ==> Told(db.wakes[i]));
    hide ApplyDB;
  }

  lemma StepKeepsToldOnce(w: World, op: Op)
    requires ToldOnce(w.db.wakes)
    ensures ToldOnce(Apply(w, op).db.wakes)
  {
    hide ToldOnce, T.Apply, RecordCohort, RecordLiveness, AfterFinish, T.Finish, Settle, Persist, ClaimOne, Observed;
    match op
    case Finish(id, target, result, version, charge, now) =>
      if id in w.db.tasks {
        var row := T.Finish(w.db.tasks[id], target, result, version, charge);
        if row.Some? {
          AfterFinishKeepsToldOnce(w.db, id, row.value, now);
        }
      }
    case Rescan(cohort, now) => RescanKeepsToldOnce(w.db, cohort, now);
    case Tick(id, finding, over, now, timeout) =>
      if id in w.db.tasks {
        LivenessKeepsToldOnce(w.db.(tasks := w.db.tasks[id := Observed(w.db.tasks[id], finding, over, now)]), id, now, timeout);
      }
    case Reserve(_, _, _, _, _) =>
    case Move(_, _) =>
    case Render(_, _) =>
    case Send(_, _) =>
    case _ => SettleKeepsToldOnce(w.db, op);
  }

  /** Over the whole run, a lost or over-budget epoch of a child has at most one wake that is not suppressed. */
  lemma {:induction false} LossesAreToldOnce(ops: seq<Op>)
    ensures ToldOnce(Run(START, ops).db.wakes)
    decreases |ops|
  {
    hide Apply;
    if ops != [] {
      LossesAreToldOnce(ops[..|ops| - 1]);
      hide ToldOnce;
      StepKeepsToldOnce(Run(START, ops[..|ops| - 1]), ops[|ops| - 1]);
    }
  }
}
