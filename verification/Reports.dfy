/**
 What the outbox reports, and exactly when (`wakes.py`, `record_liveness_wakes` and the cohort
 predicates): stalls and their escalation, losses, overrun budgets, blocked children and ended cohorts.
 */
module Reports {
  import opened Options
  import opened Wakes
  import opened WakeRuns
  import opened StallEpisodes
  import T = TaskStore

  /** A fresh wake about one child. */
  function Report(parent: TaskId, about: Predicate, key: Key, now: real): Wake {
    Wake(parent, about, key, None, now, Pending, None, None, None, None)
  }

  /** No stall finding: the child works, or waits for a human by design. */
  predicate Quiet(t: T.Task) {
    t.liveness == T.Live || t.liveness == T.Parked
  }

  // ---- stalls ----

  /** The next report of the open episode: the first at once, the second when the timeout has passed since the first. */
  predicate ReportDue(t: T.Task, now: real, timeout: real) {
    && !Quiet(t)
    && (t.livenessWakes == 0 || (t.livenessWakes == 1 && t.since.Some? && now - t.since.value >= timeout))
  }

  function ReportKey(child: TaskId, t: T.Task): Key {
    EpisodeKey(child, t.epoch, SilentReason(t.liveness), t.episode, t.livenessWakes == 1)
  }

  /** Arming adds the due report and counts it, unless the same one is still live; otherwise it does nothing. */
  lemma StallIsArmedExactlyWhenDue(db: DB, child: TaskId, parent: TaskId, now: real, timeout: real)
    requires child in db.tasks
    ensures var t := db.tasks[child];
            ArmStall(db, child, parent, now, timeout) ==
            if ReportDue(t, now, timeout) && !LiveKey(db.wakes, ReportKey(child, t)) then
              DB(db.tasks[child := t.(livenessWakes := t.livenessWakes + 1, since := Some(now))],
                 db.wakes + [Report(parent, AnyChildStalled, ReportKey(child, t), now)], db.nextToken)
            else db
  {
    hide LiveKey;
  }

  lemma ToldOrArmed(db: DB, parent: TaskId, key: Key, now: real)
    requires key.EpisodeKey?
    ensures ArmOnce(db, parent, key, now) ==
            if ToldKey(db.wakes, key) then db
            else db.(wakes := db.wakes + [Report(parent, match key.reason
                                                         case LostReason => AnyChildLost
                                                         case OverBudgetReason => AnyChildOverBudget
                                                         case SilentReason(_) => AnyChildStalled, key, now)])
  {
    if LiveKey(db.wakes, key) {
      var i: nat :| i < |db.wakes| && db.wakes[i].key == key && Live(db.wakes[i]);
      assert Told(db.wakes[i]);
    }
  }

  predicate Lost(t: T.Task) {
    t.state == T.Lost || (t.state == T.Exhausted && t.result.Some? && "exhausted: lost:" <= t.result.value)
  }

  function LostKey(child: TaskId, t: T.Task): Key {
    EpisodeKey(child, t.epoch, LostReason, 1, false)
  }

  function BudgetKey(child: TaskId, t: T.Task): Key {
    EpisodeKey(child, t.epoch, OverBudgetReason, 1, false)
  }

  lemma LossIsALoss(t: T.Task)
    ensures ReportsLoss(t) <==> Lost(t)
  {
    assert !("exhausted: lost:" <= "");
  }

  /** The key of a budget report is not that of a stall report. */
  lemma StallLeavesBudget(db: DB, child: TaskId, parent: TaskId, now: real, timeout: real)
    requires child in db.tasks
    ensures var t, d := db.tasks[child], ArmStall(db, child, parent, now, timeout);
            ToldKey(d.wakes, BudgetKey(child, t)) <==> ToldKey(db.wakes, BudgetKey(child, t))
  {
    hide LiveKey;
    var t, d := db.tasks[child], ArmStall(db, child, parent, now, timeout);
    if d != db {
      assert d.wakes[..|db.wakes|] == db.wakes;
      if ToldKey(db.wakes, BudgetKey(child, t)) {
        var i: nat :| i < |db.wakes| && db.wakes[i].key == BudgetKey(child, t) && Told(db.wakes[i]);
        assert d.wakes[i] == db.wakes[i];
      }
    }
  }

  /**
   Everything one pass reports of a child that has a manager: a lost one its loss, once; an active
   one its due stall report and its overrun budget, once; any other nothing.
   */
  lemma ReportsExactly(db: DB, child: TaskId, now: real, timeout: real)
    requires child in db.tasks && db.tasks[child].parent.Some?
    ensures var t, p, d := db.tasks[child], db.tasks[child].parent.value, RecordLiveness(db, child, now, timeout);
            if Lost(t) then
              d == if ToldKey(db.wakes, LostKey(child, t)) then db
                   else db.(wakes := db.wakes + [Report(p, AnyChildLost, LostKey(child, t), now)])
            else if t.state != T.Active then d == db
            else
              var stalls := if ReportDue(t, now, timeout) && !LiveKey(db.wakes, ReportKey(child, t)) then
                              [Report(p, AnyChildStalled, ReportKey(child, t), now)] else [];
              var budgets := if t.overBudget && !ToldKey(db.wakes, BudgetKey(child, t)) then
                               [Report(p, AnyChildOverBudget, BudgetKey(child, t), now)] else [];
              && d.wakes == db.wakes + stalls + budgets && d.nextToken == db.nextToken
              && d.tasks == if stalls == [] then db.tasks
                            else db.tasks[child := t.(livenessWakes := t.livenessWakes + 1, since := Some(now))]
  {
    hide LiveKey, ToldKey, ArmOnce, ArmStall, ReportsLoss, Lost, ReportDue;
    var t, p := db.tasks[child], db.tasks[child].parent.value;
    LossIsALoss(t);
    ToldOrArmed(db, p, LostKey(child, t), now);
    StallIsArmedExactlyWhenDue(db, child, p, now, timeout);
    StallLeavesBudget(db, child, p, now, timeout);
    ToldOrArmed(ArmStall(db, child, p, now, timeout), p, BudgetKey(child, t), now);
  }

  lemma {:induction false} TimesHasKey(wakes: seq<Wake>, key: Key)
    requires key.EpisodeKey? && key.reason.SilentReason? && LiveKey(wakes, key)
    ensures StallTimes(wakes, key.child, key.epoch, key.episode) != []
    decreases |wakes|
  {
    var i: nat :| i < |wakes| && wakes[i].key == key && Live(wakes[i]);
    if i < |wakes| - 1 {
      assert wakes[..|wakes| - 1][i] == wakes[i];
      TimesHasKey(wakes[..|wakes| - 1], key);
    }
  }

  lemma {:induction false} SomeGap(ops: seq<Op>) returns (gap: real)
    ensures forall i :: 0 <= i < |ops| && ops[i].Tick? ==> ops[i].timeout >= gap
  {
    if ops == [] {
      gap := 0.0;
    } else {
      var last := ops[|ops| - 1];
      gap := SomeGap(ops[..|ops| - 1]);
      if last.Tick? && last.timeout < gap {
        gap := last.timeout;
      }
    }
  }

  /** In every run the next episode of a child has no report yet. */
  lemma NextEpisodeIsUntold(ops: seq<Op>, id: TaskId)
    requires id in Run(START, ops).db.tasks
    ensures var db := Run(START, ops).db;
            StallTimes(db.wakes, id, db.tasks[id].epoch, db.tasks[id].episode + 1) == []
  {
    var gap := SomeGap(ops);
    RunKeepsEpisodes(ops, id, gap);
    hide Run, StallTimes;
    var db := Run(START, ops).db;
    assert StallEpisodes.Later(db.tasks[id], db.tasks[id].epoch, db.tasks[id].episode + 1);
  }

  /** The first report of an episode nothing was told of. */
  lemma FirstReport(db: DB, id: TaskId, now: real, timeout: real)
    requires id in db.tasks && db.tasks[id].parent.Some? && db.tasks[id].state == T.Active
    requires !Quiet(db.tasks[id]) && db.tasks[id].livenessWakes == 0
    requires StallTimes(db.wakes, id, db.tasks[id].epoch, db.tasks[id].episode) == []
    ensures var t, d := db.tasks[id], RecordLiveness(db, id, now, timeout);
            && StallTimes(d.wakes, id, t.epoch, t.episode) == [now]
            && d.tasks == db.tasks[id := t.(livenessWakes := 1, since := Some(now))]
  {
    hide RecordLiveness, LiveKey, ToldKey, StallTimes;
    var t, p := db.tasks[id], db.tasks[id].parent.value;
    var key := ReportKey(id, t);
    if LiveKey(db.wakes, key) {
      TimesHasKey(db.wakes, key);
    }
    ReportsExactly(db, id, now, timeout);
    var report, budget := Report(p, AnyChildStalled, key, now), Report(p, AnyChildOverBudget, BudgetKey(id, t), now);
    TimesSnoc(db.wakes, report, id, t.epoch, t.episode);
    TimesSnoc(db.wakes + [report], budget, id, t.epoch, t.episode);
    assert db.wakes + [report] + [] == db.wakes + [report];
  }

  /**
   Over every run, a tick that finds a working or parked child of a manager silent opens an episode
   and reports it, once, at that moment; whatever was told before cannot stand in its way.
   */
  lemma SilenceIsReported(ops: seq<Op>, op: Op)
    requires op.Tick? && op.finding.Some? && op.finding.value in {T.IdleUnreported, T.Limbo, T.Stalled}
    requires var db := Run(START, ops).db;
             op.id in db.tasks && db.tasks[op.id].parent.Some? && db.tasks[op.id].state == T.Active && Quiet(db.tasks[op.id])
    ensures var t, d := Run(START, ops).db.tasks[op.id], Run(START, ops + [op]).db;
            && StallTimes(d.wakes, op.id, t.epoch, t.episode + 1) == [op.now]
            && op.id in d.tasks && d.tasks[op.id].liveness == op.finding.value && d.tasks[op.id].episode == t.episode + 1
            && d.tasks[op.id].livenessWakes == 1 && d.tasks[op.id].since == Some(op.now)
  {
    hide Run, StallTimes, ApplyDB;
    TickSnoc(ops, op);
    NextEpisodeIsUntold(ops, op.id);
    SilentTick(Run(START, ops).db, op);
  }

  lemma TickSnoc(ops: seq<Op>, op: Op)
    requires op.Tick?
    ensures Run(START, ops + [op]).db == ApplyDB(Run(START, ops).db, op)
  {
    hide ApplyDB;
    assert (ops + [op])[..|ops|] == ops;
  }

  lemma SilentTick(db: DB, op: Op)
    requires op.Tick? && op.finding.Some? && op.finding.value in {T.IdleUnreported, T.Limbo, T.Stalled}
    requires op.id in db.tasks && db.tasks[op.id].parent.Some? && db.tasks[op.id].state == T.Active && Quiet(db.tasks[op.id])
    requires StallTimes(db.wakes, op.id, db.tasks[op.id].epoch, db.tasks[op.id].episode + 1) == []
    ensures var t, d := db.tasks[op.id], ApplyDB(db, op);
            && StallTimes(d.wakes, op.id, t.epoch, t.episode + 1) == [op.now]
            && op.id in d.tasks && d.tasks[op.id].liveness == op.finding.value && d.tasks[op.id].episode == t.episode + 1
            && d.tasks[op.id].livenessWakes == 1 && d.tasks[op.id].since == Some(op.now)
  {
    hide StallTimes, Observed, RecordLiveness;
    var t := db.tasks[op.id];
    var u := Observed(t, op.finding, op.over, op.now);
    FoundSilent(t, op.finding.value, op.over, op.now);
    FirstReport(db.(tasks := db.tasks[op.id := u]), op.id, op.now, op.timeout);
  }

  lemma FoundSilent(t: T.Task, finding: T.Liveness, over: bool, now: real)
    requires t.state == T.Active && Quiet(t) && finding in {T.IdleUnreported, T.Limbo, T.Stalled}
    ensures var u := Observed(t, Some(finding), over, now);
            && u == t.(liveness := finding, episode := t.episode + 1, since := Some(now), livenessWakes := 0,
                       overBudget := t.overBudget || over)
            && ReportDue(u, now, 0.0)
  {
  }

  // ---- losses and cohorts ----

  lemma AppendedIsTold(wakes: seq<Wake>, w: Wake)
    requires w.state == Pending
    ensures ToldKey(wakes + [w], w.key)
  {
    assert (wakes + [w])[|wakes|] == w;
  }

  /** The commit that loses a child, or exhausts it by a loss, tells its manager in the same transaction. */
  lemma LossIsTold(db: DB, id: TaskId, cause: string, version: Option<nat>, charge: bool, now: real)
    requires id in db.tasks && db.tasks[id].parent.Some?
    requires FinishWithWake(db, id, T.Lost, Some("lost:" + cause), version, charge, now).Some?
    ensures var d := FinishWithWake(db, id, T.Lost, Some("lost:" + cause), version, charge, now).value;
            && id in d.tasks && Lost(d.tasks[id]) && ToldKey(d.wakes, LostKey(id, d.tasks[id]))
  {
    hide T.Finish, RecordCohort, RecordLiveness, Bumped, ToldKey;
    T.FinishLeaves(db.tasks[id], T.Lost, Some("lost:" + cause), version, charge);
    T.FinishKeeps(db.tasks[id], T.Lost, Some("lost:" + cause), version, charge);
    var row := T.Finish(db.tasks[id], T.Lost, Some("lost:" + cause), version, charge).value;
    assert Lost(row) by {
      if row.state == T.Exhausted {
        assert row.result == Some("exhausted: " + ("lost:" + cause));
        assert "exhausted: " + ("lost:" + cause) == "exhausted: lost:" + cause;
      }
    }
    var p := row.parent.value;
    var bumped := db.(tasks := Bumped(db.tasks[id := row], p));
    BumpedKeepsRow(db.tasks[id := row], p, id);
    var armed := RecordCohort(bumped, p, now);
    RecordCohortKeepsTasks(bumped, p, now);
    ReportsExactly(armed, id, now, PROGRESS_TIMEOUT);
    AppendedIsTold(armed.wakes, Report(p, AnyChildLost, LostKey(id, armed.tasks[id]), now));
  }

  lemma BumpedKeepsRow(tasks: map<TaskId, T.Task>, p: TaskId, id: TaskId)
    requires id in tasks
    ensures id in Bumped(tasks, p)
    ensures Bumped(tasks, p)[id].(childEventSeq := 0) == tasks[id].(childEventSeq := 0)
  {
  }

  /**
   What a manager waits for: the commit of a child's end or block leaves it a live wake if a child
   is blocked then, and one if no child can go on by itself.
   */
  lemma ManagersAreWoken(w: World, op: Op)
    requires WorldInv(w) && op.Finish? && op.id in w.db.tasks
    requires FinishWithWake(w.db, op.id, op.target, op.result, op.version, op.charge, op.now).Some?
    requires w.db.tasks[op.id].parent.Some? && w.db.tasks[op.id].parent.value in w.db.tasks
    ensures var d, p := ApplyDB(w.db, op), w.db.tasks[op.id].parent.value;
            && op.id in d.tasks && d.tasks[op.id].parent == Some(p)
            && (d.tasks[op.id].state == T.Blocked ==> LiveKey(d.wakes, CohortKey(p, AnyChildBlocked)))
            && ((forall c :: c in d.tasks && d.tasks[c].parent == Some(p) ==>
                   d.tasks[c].state in {T.Completed, T.Cancelled, T.Lost, T.Exhausted}) ==>
                  LiveKey(d.wakes, CohortKey(p, AllChildrenTerminal)))
  {
    var d, p := ApplyDB(w.db, op), w.db.tasks[op.id].parent.value;
    FinishArms(w, op);
    ParentStays(w, op);
    hide FinishWithWake, LiveKey, WorldInv, ApplyDB;
    CohortsAreWokenOnlyForThat(d.tasks, p, AnyChildBlocked);
    CohortsAreWokenOnlyForThat(d.tasks, p, AllChildrenTerminal);
    hide Satisfied;
  }

  lemma ParentStays(w: World, op: Op)
    requires WorldInv(w) && op.Finish? && op.id in w.db.tasks
    ensures op.id in ApplyDB(w.db, op).tasks && ApplyDB(w.db, op).tasks[op.id].parent == w.db.tasks[op.id].parent
  {
    FinishKeepsInv(w.db, op);
    hide ApplyDB, Inv, RowsEvolve;
  }

  lemma EndedIsNotLive(s: T.State)
    ensures s in {T.Completed, T.Cancelled, T.Lost, T.Exhausted} <==> s !in T.LIVE_STATES
  {
    match s
    case Reserved => case Active => case Replacing => case Blocked =>
    case Completed => case Cancelled => case Lost => case Exhausted =>
  }

  /** A cohort wake is armed for nothing else. */
  lemma CohortsAreWokenOnlyForThat(tasks: map<TaskId, T.Task>, p: TaskId, about: Predicate)
    ensures Satisfied(tasks, p, about) <==>
              || (about == AnyChildBlocked && exists c :: c in tasks && tasks[c].parent == Some(p) && tasks[c].state == T.Blocked)
              || (about == AllChildrenTerminal && (exists c :: c in tasks && tasks[c].parent == Some(p))
                  && forall c :: c in tasks && tasks[c].parent == Some(p) ==>
                       tasks[c].state in {T.Completed, T.Cancelled, T.Lost, T.Exhausted})
  {
    if about == AnyChildBlocked {
      if exists c :: c in tasks && tasks[c].parent == Some(p) && tasks[c].state == T.Blocked {
        var c :| c in tasks && tasks[c].parent == Some(p) && tasks[c].state == T.Blocked;
        assert IsChild(tasks, c, p);
      }
    } else if about == AllChildrenTerminal {
      assert forall c :: c in tasks ==> (IsChild(tasks, c, p) <==> tasks[c].parent == Some(p));
      forall c | c in tasks
        ensures tasks[c].state in {T.Completed, T.Cancelled, T.Lost, T.Exhausted} <==> tasks[c].state !in T.LIVE_STATES
      {
        EndedIsNotLive(tasks[c].state);
      }
    }
  }
}
