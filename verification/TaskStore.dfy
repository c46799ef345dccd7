/**
 Task rows and the guarded transitions that move them (`task_store.py`), with the failover
 decisions that drive them (`sdk.py`). Every transition is one `UPDATE … WHERE state IN (…) AND
 version = ?`; here it is a function from a row to the new row, or `None` where the call raises
 and the transaction rolls back.
 */
module TaskStore {
  import opened Options

  type TaskId = string

  datatype State = Reserved | Active | Replacing | Blocked | Completed | Cancelled | Lost | Exhausted

  datatype Liveness = Live | Parked | IdleUnreported | Limbo | Stalled

  /** A `managed_tasks` row; `recovery` is the marker an automatic replacement leaves in the target. */
  datatype Task = Task(
    parent: Option<TaskId>, state: State, epoch: nat, attempts: nat, maxAttempts: nat, childLimit: nat,
    spec: string, recovery: bool, result: Option<string>, version: nat,
    childEventSeq: nat, lastWokenSeq: nat,
    liveness: Liveness, episode: nat, since: Option<real>, livenessWakes: nat, overBudget: bool)

  const LIVE_STATES: set<State> := {Reserved, Active, Replacing, Blocked}
  const ACTIVATE_PREDECESSORS: set<State> := {Reserved, Active, Replacing}
  const REPLACE_PREDECESSORS: set<State> := {Active, Blocked, Lost}
  const RESERVATION_EXPIRED: string := "reservation expired"

  /** Legal predecessors per finish target; `None` for a state no call can finish in. */
  function FinishPredecessors(target: State): Option<set<State>> {
    match target
    case Completed => Some({Active, Replacing, Blocked})
    case Blocked => Some({Reserved, Active, Replacing})
    case Cancelled => Some({Reserved, Active, Replacing, Blocked})
    case Lost => Some({Reserved, Active, Replacing})
    case Exhausted => Some({Reserved, Active, Replacing, Blocked})
    case _ => None
  }

  function StateName(s: State): string {
    match s
    case Reserved => "reserved" case Active => "active" case Replacing => "replacing" case Blocked => "blocked"
    case Completed => "completed" case Cancelled => "cancelled" case Lost => "lost" case Exhausted => "exhausted"
  }

  function Fresh(parent: Option<TaskId>, maxAttempts: nat, childLimit: nat, spec: string): Task {
    Task(parent, Reserved, 1, 0, maxAttempts, childLimit, spec, false, None, 0, 0, 0, Live, 0, None, 0, false)
  }

  // ---- row transitions ----

  function Guarded(t: Task, allowed: set<State>, version: Option<nat>, next: Task): Option<Task> {
    if t.state in allowed && (version.None? || version.value == t.version) then
      Some(next.(version := t.version + 1))
    else None
  }

  function Activated(t: Task): Task {
    t.(state := Active)
  }

  /** A replacement is a fresh subject: every observation about its predecessor is cleared. */
  function Replaced(t: Task, charge: bool, recovery: bool): Task {
    t.(state := Replacing, epoch := t.epoch + 1, attempts := t.attempts + (if charge then 1 else 0),
       recovery := recovery, liveness := Live, episode := 0, since := None, livenessWakes := 0, overBudget := false)
  }

  function PrepareReplacement(t: Task, charge: bool, recovery: bool, version: Option<nat>): Option<Task> {
    if t.attempts >= t.maxAttempts then None
    else Guarded(t, REPLACE_PREDECESSORS, version, Replaced(t, charge, recovery))
  }

  /** Python's `result or fallback`: an empty string counts as absent. */
  function OrElse(result: Option<string>, fallback: string): string {
    if result.None? || result.value == "" then fallback else result.value
  }

  function FailureCharged(t: Task, target: State, result: Option<string>): Task {
    if t.attempts + 1 >= t.maxAttempts then
      t.(state := Exhausted, attempts := t.attempts + 1,
         result := Some("exhausted: " + OrElse(result, StateName(target))))
    else t.(state := target, attempts := t.attempts + 1, result := result)
  }

  function RecordFailure(t: Task, target: State, allowed: set<State>, result: Option<string>, version: Option<nat>): Option<Task> {
    if t.attempts >= t.maxAttempts then None
    else Guarded(t, allowed, version, FailureCharged(t, target, result))
  }

  function ExhaustionRecorded(t: Task, result: Option<string>): Task {
    t.(state := Exhausted, attempts := t.attempts + 1, result := Some("exhausted: " + OrElse(result, "failed")))
  }

  function Finish(t: Task, target: State, result: Option<string>, version: Option<nat>, charge: bool): Option<Task> {
    match FinishPredecessors(target)
    case None => None
    case Some(allowed) =>
      if target == Lost || charge then RecordFailure(t, target, allowed, result, version)
      else if target == Exhausted then Guarded(t, allowed, version, ExhaustionRecorded(t, result))
      else Guarded(t, allowed, version, t.(state := target, result := result))
  }

  function Checkpoint(t: Task, version: Option<nat>): Option<Task> {
    Guarded(t, LIVE_STATES, version, t)
  }

  function Reissued(t: Task, spec: string): Task {
    t.(state := Reserved, epoch := t.epoch + 1, spec := spec, recovery := false, result := None)
  }

  /** `_reissue_expired`: only an expired reservation, and only while attempts remain. */
  function Reissue(t: Task, spec: string): Option<Task> {
    if t.state != Lost || t.result != Some(RESERVATION_EXPIRED) || t.attempts >= t.maxAttempts then None
    else Guarded(t, {Lost}, Some(t.version), Reissued(t, spec))
  }

  function Resumed(t: Task): Task {
    if t.recovery then t.(epoch := t.epoch + 1, attempts := t.attempts + 1, recovery := false) else t
  }

  /** The operator's `replace()`. */
  function OperatorReplace(t: Task): Option<Task> {
    if t.state == Replacing then Guarded(t, {Replacing}, Some(t.version), Resumed(t))
    else PrepareReplacement(t, false, false, Some(t.version))
  }

  /** Working, parked or silent: only a move between two of these is an episode boundary. */
  datatype Stretch = Working | Waiting | Silent

  function StretchOf(l: Liveness): Stretch {
    match l
    case Live => Working
    case Parked => Waiting
    case _ => Silent
  }

  function Observed(t: Task, liveness: Liveness, now: real): Task {
    if StretchOf(t.liveness) == StretchOf(liveness) then t.(liveness := liveness)
    else if liveness == Live then t.(liveness := Live, since := None, livenessWakes := 0)
    else t.(liveness := liveness, episode := t.episode + 1, since := Some(now), livenessWakes := 0)
  }

  function RecordLiveness(t: Task, liveness: Liveness, now: real): Task {
    if t.state in LIVE_STATES then Observed(t, liveness, now) else t
  }

  function RecordOverBudget(t: Task): Task {
    if t.state in LIVE_STATES then t.(overBudget := true) else t
  }

  // ---- the store ----

  class Store {
    var tasks: map<TaskId, Task>

    constructor ()
      ensures tasks == map[]
    {
      tasks := map[];
    }

    /** `None` is a raised error; the row is then as it was. */
    method Transition(id: TaskId, allowed: set<State>, version: Option<nat>, assign: Task -> Task)
      returns (r: Option<Task>)
      modifies this
      ensures r == if id in old(tasks) then Guarded(old(tasks)[id], allowed, version, assign(old(tasks)[id])) else None
      ensures tasks == if r.Some? then old(tasks)[id := r.value] else old(tasks)
    {
      if id !in tasks {
        return None;
      }
      var row := tasks[id];
      if row.state !in allowed || (version.Some? && version.value != row.version) {
        return None;
      }
      tasks := tasks[id := assign(row).(version := row.version + 1)];
      r := Some(tasks[id]);
    }

    method Activate(id: TaskId) returns (r: Option<Task>)
      modifies this
      ensures r == if id in old(tasks) then
                     Guarded(old(tasks)[id], ACTIVATE_PREDECESSORS, None, Activated(old(tasks)[id])) else None
      ensures tasks == if r.Some? then old(tasks)[id := r.value] else old(tasks)
    {
      r := Transition(id, ACTIVATE_PREDECESSORS, None, (t: Task) => t.(state := Active));
    }

    method Replace(id: TaskId, charge: bool, recovery: bool, version: Option<nat>) returns (r: Option<Task>)
      modifies this
      ensures r == if id in old(tasks) then PrepareReplacement(old(tasks)[id], charge, recovery, version) else None
      ensures tasks == if r.Some? then old(tasks)[id := r.value] else old(tasks)
    {
      if id !in tasks || tasks[id].attempts >= tasks[id].maxAttempts {
        return None;
      }
      r := Transition(id, REPLACE_PREDECESSORS, version, (t: Task) => Replaced(t, charge, recovery));
    }

    method FinishTask(id: TaskId, target: State, result: Option<string>, version: Option<nat>, charge: bool)
      returns (r: Option<Task>)
      modifies this
      ensures r == if id in old(tasks) then Finish(old(tasks)[id], target, result, version, charge) else None
      ensures tasks == if r.Some? then old(tasks)[id := r.value] else old(tasks)
    {
      var allowed := FinishPredecessors(target);
      if allowed.None? {
        return None;
      }
      if target == Lost || charge {
        if id !in tasks || tasks[id].attempts >= tasks[id].maxAttempts {
          return None;
        }
        if tasks[id].attempts + 1 >= tasks[id].maxAttempts {
          var note := Some("exhausted: " + OrElse(result, StateName(target)));
          r := Transition(id, allowed.value, version,
            (t: Task) => t.(state := Exhausted, attempts := t.attempts + 1, result := note));
        } else {
          r := Transition(id, allowed.value, version,
            (t: Task) => t.(state := target, attempts := t.attempts + 1, result := result));
        }
      } else if target == Exhausted {
        r := Transition(id, allowed.value, version, (t: Task) => ExhaustionRecorded(t, result));
      } else {
        r := Transition(id, allowed.value, version, (t: Task) => t.(state := target, result := result));
      }
    }

    method ReissueExpired(id: TaskId, spec: string) returns (r: Option<Task>)
      modifies this
      ensures r == if id in old(tasks) then Reissue(old(tasks)[id], spec) else None
      ensures tasks == if r.Some? then old(tasks)[id := r.value] else old(tasks)
    {
      if id !in tasks || tasks[id].state != Lost || tasks[id].result != Some(RESERVATION_EXPIRED) {
        return None;
      }
      if tasks[id].attempts >= tasks[id].maxAttempts {
        return None;
      }
      r := Transition(id, {Lost}, Some(tasks[id].version), (t: Task) => Reissued(t, spec));
    }

    /** An observation: no version bump, and nothing at all on a row that has ended. */
    method ObserveLiveness(id: TaskId, liveness: Liveness, now: real)
      modifies this
      ensures tasks == if id in old(tasks) then old(tasks)[id := RecordLiveness(old(tasks)[id], liveness, now)]
                       else old(tasks)
    {
      if id in tasks {
        var row := tasks[id];
        if StretchOf(row.liveness) == StretchOf(liveness) {
          row := row.(liveness := liveness);
        } else {
          var closing := liveness == Live;
          row := row.(liveness := liveness, episode := row.episode + (if closing then 0 else 1),
                      since := if closing then None else Some(now), livenessWakes := 0);
        }
        if tasks[id].state in LIVE_STATES {
          tasks := tasks[id := row];
        }
        assert tasks == tasks[id := tasks[id]];
      }
    }

    // ---- failover decisions ----

    /** `_block_unroutable`: silence for a task that is blocked already. */
    method BlockUnroutable(id: TaskId, reason: string) returns (r: Option<Task>)
      modifies this
      ensures r == if id in old(tasks) then Unroutable(old(tasks)[id], reason) else None
      ensures tasks == if r.Some? then old(tasks)[id := r.value] else old(tasks)
    {
      if id !in tasks || tasks[id].state == Blocked {
        return None;
      }
      r := FinishTask(id, Blocked, Some(reason), None, true);
    }

    /**
     `_advance_past_outcome_locked`. `routable` is the typed provider outcome of a terminal
     effect, if it has one; `routed` whether another route was selected.
     */
    method AdvancePastOutcome(id: TaskId, ended: bool, routable: Option<string>, pinned: bool, routed: bool)
      returns (r: Option<Task>)
      modifies this
      ensures r == if id in old(tasks) then Advance(old(tasks)[id], ended, routable, pinned, routed) else None
      ensures tasks == if r.Some? then old(tasks)[id := r.value] else old(tasks)
    {
      if id !in tasks {
        return None;
      }
      var task := tasks[id];
      if task.state == Replacing {
        if !task.recovery || !ended {
          return None;
        }
        r := BlockUnroutable(id, "replacement epoch ended");
        return;
      }
      if task.state != Active && task.state != Blocked {
        return None;
      }
      if !ended || routable.None? || task.attempts >= task.maxAttempts {
        return None;
      }
      if task.state == Active && task.attempts + 1 >= task.maxAttempts {
        r := FinishTask(id, Exhausted, routable, None, false);
        return;
      }
      if pinned || !routed {
        r := BlockUnroutable(id, routable.value);
        return;
      }
      r := Replace(id, task.state == Active, true, Some(task.version));
    }
  }

  function Unroutable(t: Task, reason: string): Option<Task> {
    if t.state == Blocked then None else Finish(t, Blocked, Some(reason), None, true)
  }

  function Advance(t: Task, ended: bool, routable: Option<string>, pinned: bool, routed: bool): Option<Task> {
    if t.state == Replacing then
      if t.recovery && ended then Unroutable(t, "replacement epoch ended") else None
    else if t.state !in {Active, Blocked} || !ended || routable.None? || t.attempts >= t.maxAttempts then None
    else if t.state == Active && t.attempts + 1 >= t.maxAttempts then Finish(t, Exhausted, routable, None, false)
    else if pinned || !routed then Unroutable(t, routable.value)
    else PrepareReplacement(t, t.state == Active, true, Some(t.version))
  }

  // ---- runs of one task ----

  datatype Op =
    | Activate
    | Reject(reason: string)                 // a launch refused for good
    | Lose(loss: Option<string>, version: Option<nat>)
    | ProcessFailed(reason: string)          // a worker process that stopped on its own
    | RecordOutcome(outcome: string)         // a typed provider outcome, written to the epoch's effect row
    | AdvanceOutcome(ended: bool, routable: Option<string>, pinned: bool, routed: bool)
    | ReissueExpired(spec: string)
    | Complete(summary: Option<string>)
    | Cancel
    | SaveCheckpoint(version: Option<nat>)
    | ObserveLive(liveness: Liveness, now: real)
    | OverBudget
    | BlockUncharged(reason: string)         // `blocked()` and the approval timeout
    | Operator                               // `replace()`

  function Apply(t: Task, op: Op): Task {
    match op
    case Activate => Else(Guarded(t, ACTIVATE_PREDECESSORS, None, Activated(t)), t)
    case Reject(reason) =>
      Else(if t.state in {Reserved, Replacing} then Finish(t, Blocked, Some(reason), None, true) else None, t)
    case Lose(loss, version) => Else(Finish(t, Lost, loss, version, false), t)
    case ProcessFailed(reason) => Else(if t.state == Active then Unroutable(t, reason) else None, t)
    case RecordOutcome(_) => t
    case AdvanceOutcome(ended, routable, pinned, routed) => Else(Advance(t, ended, routable, pinned, routed), t)
    case ReissueExpired(spec) => Else(Reissue(t, spec), t)
    case Complete(summary) => Else(Finish(t, Completed, summary, None, false), t)
    case Cancel => Else(Finish(t, Cancelled, None, None, false), t)
    case SaveCheckpoint(version) => Else(Checkpoint(t, version), t)
    case ObserveLive(liveness, now) => RecordLiveness(t, liveness, now)
    case OverBudget => RecordOverBudget(t)
    case BlockUncharged(reason) => Else(Finish(t, Blocked, Some(reason), None, false), t)
    case Operator => Else(OperatorReplace(t), t)
  }

  function Run(t: Task, ops: seq<Op>): Task {
    if ops == [] then t else Apply(Run(t, ops[..|ops| - 1]), ops[|ops| - 1])
  }

  lemma RunEmpty(t: Task)
    ensures Run(t, []) == t
  {
  }

  lemma RunSnoc(t: Task, ops: seq<Op>, op: Op)
    ensures Run(t, ops + [op]) == Apply(Run(t, ops), op)
  {
    assert (ops + [op])[..|ops|] == ops;
  }

  predicate Observation(op: Op) {
    op.ObserveLive? || op.OverBudget?
  }

  /** The columns only a lifecycle transition writes. */
  predicate SameLifecycle(a: Task, b: Task) {
    && a.state == b.state && a.epoch == b.epoch && a.attempts == b.attempts && a.result == b.result
    && a.spec == b.spec && a.recovery == b.recovery
  }

  /** The columns no transition of the task's own row writes. */
  predicate SameIdentity(a: Task, b: Task) {
    && a.parent == b.parent && a.maxAttempts == b.maxAttempts && a.childLimit == b.childLimit
    && a.childEventSeq == b.childEventSeq && a.lastWokenSeq == b.lastWokenSeq
  }

  const FINAL_STATES: set<State> := {Completed, Cancelled, Exhausted}

  /** What every single step keeps. */
  ghost predicate StepKeeps(t: Task, op: Op, u: Task) {
    && SameIdentity(t, u)
    && (t.state in FINAL_STATES ==> u == t)
    && (t.state == Lost && u.state != Lost ==> t.epoch < u.epoch)
    && t.epoch <= u.epoch <= t.epoch + 1 && t.attempts <= u.attempts <= t.attempts + 1
    && (if Observation(op) then SameLifecycle(t, u) && u.version == t.version
        else u == t || u.version == t.version + 1)
  }

  lemma FinishKeeps(t: Task, target: State, result: Option<string>, version: Option<nat>, charge: bool)
    ensures var r := Finish(t, target, result, version, charge);
            r.Some? ==>
              && SameIdentity(t, r.value)
              && t.state !in {Completed, Cancelled, Exhausted, Lost} && r.value.epoch == t.epoch
              && t.attempts <= r.value.attempts <= t.attempts + 1 && r.value.version == t.version + 1
  {
    hide Finish;
    FinishLeaves(t, target, result, version, charge);
  }

  lemma AdvanceKeeps(t: Task, op: Op)
    requires op.AdvanceOutcome?
    ensures StepKeeps(t, op, Apply(t, op))
  {
    hide Finish;
    FinishKeeps(t, Blocked, Some("replacement epoch ended"), None, true);
    FinishKeeps(t, Exhausted, op.routable, None, false);
    if op.routable.Some? {
      FinishKeeps(t, Blocked, Some(op.routable.value), None, true);
    }
  }

  lemma StepKeepsLifecycle(t: Task, op: Op)
    ensures StepKeeps(t, op, Apply(t, op))
  {
    match op
    case Lose(loss, version) => FinishKeeps(t, Lost, loss, version, false);
    case Reject(reason) => FinishKeeps(t, Blocked, Some(reason), None, true);
    case ProcessFailed(reason) => FinishKeeps(t, Blocked, Some(reason), None, true);
    case AdvanceOutcome(ended, routable, pinned, routed) => AdvanceKeeps(t, op);
    case _ =>
  }

  /**
   The lifecycle over whole runs: a final row never changes in any column, a lost row leaves
   `lost` only with a larger epoch, epochs and attempts never go back, and two moments with one
   version agree on every lifecycle column.
   */
  lemma {:induction false} Lifecycle(t: Task, ops: seq<Op>)
    ensures t.state in FINAL_STATES ==> Run(t, ops) == t
    ensures t.state == Lost && Run(t, ops).state != Lost ==> t.epoch < Run(t, ops).epoch
    ensures t.epoch <= Run(t, ops).epoch && t.attempts <= Run(t, ops).attempts && t.version <= Run(t, ops).version
    ensures t.version == Run(t, ops).version ==> SameLifecycle(t, Run(t, ops))
    decreases |ops|
  {
    hide Apply;
    if ops != [] {
      Lifecycle(t, ops[..|ops| - 1]);
      StepKeepsLifecycle(Run(t, ops[..|ops| - 1]), ops[|ops| - 1]);
    }
  }

  /** Of all writers that allowed one version, at most one wins: after it, no run brings the version back. */
  lemma OneWriterWins(t: Task, allowed: set<State>, next: Task, ops: seq<Op>, allowedLater: set<State>, later: Task)
    requires Guarded(t, allowed, Some(t.version), next).Some?
    ensures Guarded(Run(Guarded(t, allowed, Some(t.version), next).value, ops), allowedLater, Some(t.version), later).None?
  {
    Lifecycle(Guarded(t, allowed, Some(t.version), next).value, ops);
  }

  // ---- what each transition leaves ----

  predicate Expects(version: Option<nat>, t: Task) {
    version.None? || version.value == t.version
  }

  /** The lifecycle graph: which rows may end, block or be lost. */
  predicate MayFinish(from: State, to: State) {
    match to
    case Completed => from == Active || from == Replacing || from == Blocked
    case Blocked => from == Reserved || from == Active || from == Replacing
    case Lost => from == Reserved || from == Active || from == Replacing
    case Cancelled => from == Reserved || from == Active || from == Replacing || from == Blocked
    case Exhausted => from == Reserved || from == Active || from == Replacing || from == Blocked
    case _ => false
  }

  /**
   When a finish is taken, and what it leaves: the state asked for with the result given, unless it
   is charged as the last failure, which exhausts the task and says after what.
   */
  lemma FinishLeaves(t: Task, target: State, result: Option<string>, version: Option<nat>, charge: bool)
    ensures Finish(t, target, result, version, charge).Some? <==>
              && MayFinish(t.state, target) && Expects(version, t)
              && (target == Lost || charge ==> t.attempts < t.maxAttempts)
    ensures var r := Finish(t, target, result, version, charge);
            r.Some? ==>
              var u, counted := r.value, target == Lost || charge;
              && u == t.(state := u.state, attempts := u.attempts, result := u.result, version := t.version + 1)
              && u.attempts == t.attempts + (if counted || target == Exhausted then 1 else 0)
              && u.state == (if counted && t.attempts + 1 == t.maxAttempts then Exhausted else target)
              && u.result == (if (counted && t.attempts + 1 == t.maxAttempts) || (!counted && target == Exhausted) then
                                Some("exhausted: " + if result.Some? && result.value != "" then result.value
                                                     else if counted then StateName(target) else "failed")
                              else result)
  {
  }

  /** A loss, a rejected launch and a failed process leave the row lost or blocked, and exhausted exactly on the last attempt. */
  lemma FailuresLeave(t: Task, reason: string)
    requires t.state in {Reserved, Active, Replacing} && t.attempts < t.maxAttempts && reason != ""
    ensures Failed(t, Apply(t, Lose(Some(reason), None)), Lost, reason)
    ensures t.state != Active ==> Failed(t, Apply(t, Reject(reason)), Blocked, reason)
    ensures t.state == Active ==> Failed(t, Apply(t, ProcessFailed(reason)), Blocked, reason)
  {
    hide Finish;
    FinishLeaves(t, Lost, Some(reason), None, false);
    FinishLeaves(t, Blocked, Some(reason), None, true);
  }

  ghost predicate Failed(t: Task, u: Task, target: State, reason: string) {
    && u.attempts == t.attempts + 1 && u.epoch == t.epoch && u.version == t.version + 1
    && (t.attempts + 1 < t.maxAttempts ==> u.state == target && u.result == Some(reason))
    && (t.attempts + 1 == t.maxAttempts ==> u.state == Exhausted && u.result == Some("exhausted: " + reason))
  }

  /** When a replacement is opened, and that it is a fresh subject of the next epoch. */
  lemma ReplacementLeaves(t: Task, charge: bool, recovery: bool, version: Option<nat>)
    ensures PrepareReplacement(t, charge, recovery, version).Some? <==>
              (t.state == Active || t.state == Blocked || t.state == Lost) && t.attempts < t.maxAttempts && Expects(version, t)
    ensures var r := PrepareReplacement(t, charge, recovery, version);
            r.Some? ==>
              r.value == Task(t.parent, Replacing, t.epoch + 1, if charge then t.attempts + 1 else t.attempts, t.maxAttempts,
                              t.childLimit, t.spec, recovery, t.result, t.version + 1, t.childEventSeq, t.lastWokenSeq,
                              Live, 0, None, 0, false)
  {
  }

  /** Activation, checkpoint, reissue and the operator's replace: when each is taken, and what it leaves. */
  lemma OtherMovesLeave(t: Task, spec: string)
    ensures Apply(t, Activate) ==
              if t.state == Reserved || t.state == Active || t.state == Replacing then t.(state := Active, version := t.version + 1)
              else t
    ensures Apply(t, SaveCheckpoint(None)) ==
              if t.state == Reserved || t.state == Active || t.state == Replacing || t.state == Blocked then t.(version := t.version + 1)
              else t
    ensures Apply(t, ReissueExpired(spec)) ==
              if t.state == Lost && t.result == Some("reservation expired") && t.attempts < t.maxAttempts then
                t.(state := Reserved, epoch := t.epoch + 1, spec := spec, recovery := false, result := None, version := t.version + 1)
              else t
    ensures t.state == Replacing ==>
              Apply(t, Operator) == if t.recovery then t.(epoch := t.epoch + 1, attempts := t.attempts + 1, recovery := false,
                                                           version := t.version + 1)
                                    else t.(version := t.version + 1)
    ensures t.state != Replacing ==> Apply(t, Operator) == Else(PrepareReplacement(t, false, false, Some(t.version)), t)
  {
  }

  predicate SameBehaviour(a: Liveness, b: Liveness) {
    a == b || (a != Live && a != Parked && b != Live && b != Parked)
  }

  /** An episode opens when a working or parked child falls silent or is parked, closes when it works again, and else goes on. */
  lemma ObservationLeaves(t: Task, finding: Liveness, now: real)
    ensures var u := RecordLiveness(t, finding, now);
            if t.state !in {Reserved, Active, Replacing, Blocked} then u == t
            else if SameBehaviour(t.liveness, finding) then u == t.(liveness := finding)
            else if finding == Live then u == t.(liveness := Live, since := None, livenessWakes := 0)
            else u == t.(liveness := finding, episode := t.episode + 1, since := Some(now), livenessWakes := 0)
  {
  }

  /**
   Past a recorded outcome: an active epoch is charged, and goes on to the next one, blocks without
   a route, or exhausts on the last attempt; a blocked one was charged already and waits for a route.
   */
  lemma OutcomeLeaves(t: Task, outcome: string, pinned: bool, routed: bool)
    requires t.state in {Active, Blocked} && t.attempts < t.maxAttempts && outcome != ""
    ensures var u, onward := Apply(t, AdvanceOutcome(true, Some(outcome), pinned, routed)), routed && !pinned;
            && (t.state == Active && t.attempts + 1 == t.maxAttempts ==>
                  u == t.(state := Exhausted, attempts := t.attempts + 1, result := Some("exhausted: " + outcome), version := t.version + 1))
            && (t.state == Active && t.attempts + 1 < t.maxAttempts && !onward ==>
                  u == t.(state := Blocked, attempts := t.attempts + 1, result := Some(outcome), version := t.version + 1))
            && (t.state == Active && t.attempts + 1 < t.maxAttempts && onward ==>
                  u.state == Replacing && u.recovery && u.epoch == t.epoch + 1 && u.attempts == t.attempts + 1)
            && (t.state == Blocked && !onward ==> u == t)
            && (t.state == Blocked && onward ==>
                  u.state == Replacing && u.recovery && u.epoch == t.epoch + 1 && u.attempts == t.attempts)
  {
  }

  /** An automatic replacement whose epoch ended is blocked with a charge; nothing else advances without an outcome. */
  lemma EndedReplacementLeaves(t: Task, ended: bool, routable: Option<string>, pinned: bool, routed: bool)
    ensures t.state == Replacing ==>
              var u := Apply(t, AdvanceOutcome(ended, routable, pinned, routed));
              if t.recovery && ended && t.attempts < t.maxAttempts then Failed(t, u, Blocked, "replacement epoch ended")
              else u == t
    ensures t.state != Replacing && (t.state !in {Active, Blocked} || !ended || routable.None? || t.attempts >= t.maxAttempts) ==>
              Apply(t, AdvanceOutcome(ended, routable, pinned, routed)) == t
  {
    hide Finish;
    FinishLeaves(t, Blocked, Some("replacement epoch ended"), None, true);
  }

  // ---- automatic failover terminates ----

  /** Steps nobody has to ask for: everything but the uncharged block and the operator. */
  predicate Automatic(op: Op) {
    !op.BlockUncharged? && !op.Operator?
  }

  /** A step that lets the next epoch open unpaid: an uncharged block, or a replace of a running worker. */
  predicate Unpaid(t: Task, op: Op) {
    || (op.BlockUncharged? && Apply(t, op) != t)
    || (op.Operator? && t.state == Active && Apply(t, op) != t)
  }

  function UnpaidSteps(t: Task, ops: seq<Op>): nat {
    if ops == [] then 0
    else UnpaidSteps(t, ops[..|ops| - 1]) + if Unpaid(Run(t, ops[..|ops| - 1]), ops[|ops| - 1]) then 1 else 0
  }

  /** Each open epoch is paid by an attempt, on entering blocked or lost or on leaving active. */
  predicate EpochsPaid(t: Task, unpaid: nat) {
    t.epoch <= t.attempts + unpaid + if t.state in {Blocked, Lost, Exhausted} then 0 else 1
  }

  predicate AttemptsLeft(t: Task) {
    && t.attempts <= t.maxAttempts
    && (t.state == Replacing && t.recovery ==> t.attempts < t.maxAttempts)
  }

  lemma FinishPays(t: Task, target: State, result: Option<string>, version: Option<nat>, charge: bool, unpaid: nat)
    requires EpochsPaid(t, unpaid)
    ensures var r := Finish(t, target, result, version, charge);
            r.Some? ==> EpochsPaid(r.value, unpaid + if target == Blocked && !charge then 1 else 0)
  {
    hide Finish;
    FinishLeaves(t, target, result, version, charge);
  }

  /** Each step pays for the epoch it opens, or is counted. */
  lemma StepKeepsEpochsPaid(t: Task, op: Op, unpaid: nat)
    requires EpochsPaid(t, unpaid)
    ensures EpochsPaid(Apply(t, op), unpaid + if Unpaid(t, op) then 1 else 0)
  {
    hide Finish, Advance, PrepareReplacement, RecordLiveness;
    match op
    case Reject(reason) => FinishPays(t, Blocked, Some(reason), None, true, unpaid);
    case Lose(loss, version) => FinishPays(t, Lost, loss, version, false, unpaid);
    case ProcessFailed(reason) => FinishPays(t, Blocked, Some(reason), None, true, unpaid);
    case AdvanceOutcome(_, _, _, _) => AdvancePays(t, op, unpaid);
    case Complete(summary) => FinishPays(t, Completed, summary, None, false, unpaid);
    case Cancel => FinishPays(t, Cancelled, None, None, false, unpaid);
    case BlockUncharged(reason) =>
      FinishPays(t, Blocked, Some(reason), None, false, unpaid);
      FinishLeaves(t, Blocked, Some(reason), None, false);
    case Operator =>
      OtherMovesLeave(t, "");
      ReplacementLeaves(t, false, false, Some(t.version));
    case ObserveLive(liveness, now) => ObservationLeaves(t, liveness, now);
    case _ =>
  }

  lemma AdvancePays(t: Task, op: Op, unpaid: nat)
    requires op.AdvanceOutcome? && EpochsPaid(t, unpaid)
    ensures EpochsPaid(Apply(t, op), unpaid)
  {
    hide Finish, PrepareReplacement;
    FinishPays(t, Blocked, Some("replacement epoch ended"), None, true, unpaid);
    FinishPays(t, Exhausted, op.routable, None, false, unpaid);
    FinishPays(t, Blocked, Some(Else(op.routable, "")), None, true, unpaid);
    ReplacementLeaves(t, t.state == Active, true, Some(t.version));
  }

  /** What a step leaves of the attempts: within the limit, and below it unless the task is exhausted or an operator stepped in. */
  ghost predicate AttemptsKept(t: Task, u: Task) {
    && AttemptsLeft(u) && u.maxAttempts == t.maxAttempts
    && ((t.state != Exhausted ==> t.attempts < t.maxAttempts) ==> u.state != Exhausted ==> u.attempts < t.maxAttempts)
  }

  lemma FinishKeepsAttempts(t: Task, target: State, result: Option<string>, version: Option<nat>, charge: bool)
    requires AttemptsLeft(t) && (target == Exhausted ==> t.attempts < t.maxAttempts)
    ensures var r := Finish(t, target, result, version, charge); r.Some? ==> AttemptsKept(t, r.value)
  {
    hide Finish;
    FinishLeaves(t, target, result, version, charge);
  }

  lemma AdvanceKeepsAttempts(t: Task, op: Op)
    requires op.AdvanceOutcome? && AttemptsLeft(t)
    ensures AttemptsKept(t, Apply(t, op))
  {
    hide Finish, PrepareReplacement;
    FinishKeepsAttempts(t, Blocked, Some("replacement epoch ended"), None, true);
    if t.attempts < t.maxAttempts {
      FinishKeepsAttempts(t, Exhausted, op.routable, None, false);
    }
    FinishKeepsAttempts(t, Blocked, Some(Else(op.routable, "")), None, true);
    ReplacementLeaves(t, t.state == Active, true, Some(t.version));
  }

  lemma StepKeepsAttemptsLeft(t: Task, op: Op)
    requires AttemptsLeft(t)
    ensures AttemptsLeft(Apply(t, op)) && Apply(t, op).maxAttempts == t.maxAttempts
    ensures Automatic(op) && (t.state != Exhausted ==> t.attempts < t.maxAttempts) ==>
              Apply(t, op).state != Exhausted ==> Apply(t, op).attempts < t.maxAttempts
  {
    hide Finish, Advance, PrepareReplacement, RecordLiveness;
    match op
    case Reject(reason) => FinishKeepsAttempts(t, Blocked, Some(reason), None, true);
    case Lose(loss, version) => FinishKeepsAttempts(t, Lost, loss, version, false);
    case ProcessFailed(reason) => FinishKeepsAttempts(t, Blocked, Some(reason), None, true);
    case AdvanceOutcome(_, _, _, _) => AdvanceKeepsAttempts(t, op);
    case Complete(summary) => FinishKeepsAttempts(t, Completed, summary, None, false);
    case Cancel => FinishKeepsAttempts(t, Cancelled, None, None, false);
    case BlockUncharged(reason) => FinishKeepsAttempts(t, Blocked, Some(reason), None, false);
    case Operator =>
      OtherMovesLeave(t, "");
      ReplacementLeaves(t, false, false, Some(t.version));
    case ObserveLive(liveness, now) => ObservationLeaves(t, liveness, now);
    case _ =>
  }

  /** In every run, epochs exceed attempts by at most the unpaid steps, and attempts never pass their limit. */
  lemma {:induction false} EpochsAreBudgeted(t: Task, ops: seq<Op>)
    requires t.state == Reserved && t.epoch == 1 && t.attempts == 0 && t.maxAttempts > 0 && !t.recovery
    ensures EpochsPaid(Run(t, ops), UnpaidSteps(t, ops)) && AttemptsLeft(Run(t, ops))
    ensures Run(t, ops).maxAttempts == t.maxAttempts
    decreases |ops|
  {
    hide Apply, Unpaid;
    if ops != [] {
      var before := ops[..|ops| - 1];
      EpochsAreBudgeted(t, before);
      StepKeepsEpochsPaid(Run(t, before), ops[|ops| - 1], UnpaidSteps(t, before));
      StepKeepsAttemptsLeft(Run(t, before), ops[|ops| - 1]);
    }
  }

  /**
   Without an operator or an uncharged block a task opens at most `maxAttempts` epochs,
   wherever its failures were charged, and a task that is not exhausted has an attempt left.
   */
  lemma {:induction false} AutomaticFailoverTerminates(t: Task, ops: seq<Op>)
    requires t.state == Reserved && t.epoch == 1 && t.attempts == 0 && t.maxAttempts > 0 && !t.recovery
    requires forall i :: 0 <= i < |ops| ==> Automatic(ops[i])
    ensures var u := Run(t, ops);
            && u.epoch <= u.attempts + 1 && u.epoch <= t.maxAttempts
            && (u.state in {Blocked, Lost, Exhausted} ==> u.epoch <= u.attempts)
            && (u.state != Exhausted ==> u.attempts < t.maxAttempts)
    ensures UnpaidSteps(t, ops) == 0
    decreases |ops|
  {
    hide Apply;
    EpochsAreBudgeted(t, ops);
    if ops != [] {
      var before, op := ops[..|ops| - 1], ops[|ops| - 1];
      AutomaticFailoverTerminates(t, before);
      EpochsAreBudgeted(t, before);
      assert Automatic(op);
      StepKeepsAttemptsLeft(Run(t, before), op);
    }
  }

  /** Every outcome a run advances past was recorded before, while its epoch was active. */
  ghost predicate OutcomesRecorded(t: Task, ops: seq<Op>) {
    forall i: nat :: i < |ops| && ops[i].AdvanceOutcome? && ops[i].ended && ops[i].routable.Some? ==>
                       WasRecorded(t, ops, i, ops[i].routable.value)
  }

  ghost predicate WasRecorded(t: Task, ops: seq<Op>, i: nat, outcome: string)
    requires i < |ops|
  {
    exists j: nat :: j < i && ops[j] == RecordOutcome(outcome)
                     && Run(t, ops[..j]).state == Active && Run(t, ops[..j]).epoch == Run(t, ops[..i]).epoch
  }

  const LIMITED: string := "rate_limited"

  /** The outcome arrives while the task works; the approval timeout blocks it before the sweep advances. */
  const CYCLE: seq<Op> :=
    [Activate, RecordOutcome(LIMITED), BlockUncharged("approval"), AdvanceOutcome(true, Some(LIMITED), false, true)]

  function Cycles(n: nat): seq<Op> {
    if n == 0 then [] else Cycles(n - 1) + CYCLE
  }

  lemma UnpaidSnoc(t: Task, ops: seq<Op>, op: Op)
    ensures UnpaidSteps(t, ops + [op]) == UnpaidSteps(t, ops) + if Unpaid(Run(t, ops), op) then 1 else 0
  {
    hide Unpaid, Run;
    assert (ops + [op])[..|ops|] == ops;
  }

  lemma FourMore(t: Task, ops: seq<Op>, a: Op, b: Op, c: Op, d: Op)
    ensures var u := Run(t, ops);
            && Run(t, ops + [a]) == Apply(u, a)
            && Run(t, ops + [a, b]) == Apply(Apply(u, a), b)
            && Run(t, ops + [a, b, c]) == Apply(Apply(Apply(u, a), b), c)
            && Run(t, ops + [a, b, c, d]) == Apply(Apply(Apply(Apply(u, a), b), c), d)
    ensures var u := Run(t, ops);
            UnpaidSteps(t, ops + [a, b, c, d]) ==
              UnpaidSteps(t, ops) + (if Unpaid(u, a) then 1 else 0) + (if Unpaid(Apply(u, a), b) then 1 else 0)
              + (if Unpaid(Apply(Apply(u, a), b), c) then 1 else 0)
              + (if Unpaid(Apply(Apply(Apply(u, a), b), c), d) then 1 else 0)
  {
    hide Apply, Unpaid, Run, UnpaidSteps;
    var x := ops + [a];
    var y := x + [b];
    var z := y + [c];
    RunSnoc(t, ops, a);
    RunSnoc(t, x, b);
    RunSnoc(t, y, c);
    RunSnoc(t, z, d);
    UnpaidSnoc(t, ops, a);
    UnpaidSnoc(t, x, b);
    UnpaidSnoc(t, y, c);
    UnpaidSnoc(t, z, d);
    assert y == ops + [a, b] && z == ops + [a, b, c] && z + [d] == ops + [a, b, c, d];
  }

  lemma CycleSteps(u: Task)
    requires u.state in {Reserved, Replacing} && u.attempts < u.maxAttempts
    ensures var v := Apply(u, CYCLE[0]);
            && !Unpaid(u, CYCLE[0]) && v == u.(state := Active, version := u.version + 1)
            && !Unpaid(v, CYCLE[1]) && Apply(v, CYCLE[1]) == v && Unpaid(v, CYCLE[2])
    ensures var w := Apply(Apply(u, CYCLE[0]), CYCLE[2]);
            && !Unpaid(w, CYCLE[3])
            && w.state == Blocked && w.epoch == u.epoch && w.attempts == u.attempts && w.maxAttempts == u.maxAttempts
  {
  }

  lemma OneCycle(t: Task, ops: seq<Op>)
    requires var u := Run(t, ops); u.state in {Reserved, Replacing} && u.attempts < u.maxAttempts
    requires OutcomesRecorded(t, ops)
    ensures var u, v := Run(t, ops), Run(t, ops + CYCLE);
            && v.state == Replacing && v.epoch == u.epoch + 1
            && v.attempts == u.attempts && v.maxAttempts == u.maxAttempts
    ensures UnpaidSteps(t, ops + CYCLE) == UnpaidSteps(t, ops) + 1
    ensures OutcomesRecorded(t, ops + CYCLE)
  {
    hide Run, UnpaidSteps, Unpaid, OutcomesRecorded;
    FourMore(t, ops, CYCLE[0], CYCLE[1], CYCLE[2], CYCLE[3]);
    CycleSteps(Run(t, ops));
    assert CYCLE == [CYCLE[0], CYCLE[1], CYCLE[2], CYCLE[3]];
    var w := Run(t, ops + [CYCLE[0], CYCLE[1], CYCLE[2]]);
    assert w.state == Blocked && w.epoch == Run(t, ops).epoch;
    CycleRecords(t, ops);
  }

  lemma CycleRecords(t: Task, ops: seq<Op>)
    requires OutcomesRecorded(t, ops)
    requires Run(t, ops + [CYCLE[0]]).state == Active
    requires Run(t, ops + [CYCLE[0]]).epoch == Run(t, ops + [CYCLE[0], CYCLE[1], CYCLE[2]]).epoch
    ensures OutcomesRecorded(t, ops + CYCLE)
  {
    hide Run;
    var all := ops + CYCLE;
    var n := |ops|;
    assert all[..n + 1] == ops + [CYCLE[0]] && all[..n + 3] == ops + [CYCLE[0], CYCLE[1], CYCLE[2]];
    assert all[n + 1] == RecordOutcome(LIMITED);
    forall i: nat | i < |all| && all[i].AdvanceOutcome? && all[i].ended && all[i].routable.Some?
      ensures WasRecorded(t, all, i, all[i].routable.value)
    {
      if i < n {
        assert WasRecorded(t, ops, i, ops[i].routable.value);
        EarlierRecorded(t, ops, CYCLE, i, ops[i].routable.value);
      } else {
        assert i == n + 3;
      }
    }
  }

  lemma EarlierRecorded(t: Task, ops: seq<Op>, more: seq<Op>, i: nat, outcome: string)
    requires i < |ops| && WasRecorded(t, ops, i, outcome)
    ensures WasRecorded(t, ops + more, i, outcome)
  {
    hide Run;
    var j: nat :| j < i && ops[j] == RecordOutcome(outcome)
                  && Run(t, ops[..j]).state == Active && Run(t, ops[..j]).epoch == Run(t, ops[..i]).epoch;
    assert (ops + more)[..j] == ops[..j] && (ops + more)[..i] == ops[..i] && (ops + more)[j] == ops[j];
  }

  /**
   The bound is exact, and the approval timeout's uncharged block is what breaks termination: for
   every n there is a run with n of them, no operator and no charge, that opens n more epochs, each
   past an outcome recorded while the epoch before it was active.
   */
  lemma {:induction false} UnchargedBlocksOpenEpochsForever(t: Task, n: nat)
    requires t.state == Reserved && t.epoch == 1 && t.attempts == 0 && t.maxAttempts > 0
    ensures OutcomesRecorded(t, Cycles(n))
    ensures UnpaidSteps(t, Cycles(n)) == n && forall i :: 0 <= i < |Cycles(n)| ==> !Cycles(n)[i].Operator?
    ensures var u := Run(t, Cycles(n));
            u.epoch == n + 1 && u.attempts == 0 && u.maxAttempts == t.maxAttempts && u.state in {Reserved, Replacing}
  {
    hide Apply, Unpaid, WasRecorded;
    if n > 0 {
      UnchargedBlocksOpenEpochsForever(t, n - 1);
      OneCycle(t, Cycles(n - 1));
    }
  }

  lemma RunFive(t: Task, a: Op, b: Op, c: Op, d: Op, e: Op)
    ensures Run(t, [a]) == Apply(t, a)
    ensures Run(t, [a, b]) == Apply(Apply(t, a), b)
    ensures Run(t, [a, b, c, d, e]) == Apply(Apply(Apply(Apply(Apply(t, a), b), c), d), e)
  {
    hide Apply, UnpaidSteps, Unpaid;
    RunEmpty(t);
    hide Run;
    FourMore(t, [], a, b, c, d);
    RunSnoc(t, [a, b, c, d], e);
    assert [] + [a] == [a] && [] + [a, b] == [a, b] && [] + [a, b, c, d] == [a, b, c, d];
    assert [a, b, c, d] + [e] == [a, b, c, d, e];
  }

  /** The operator can spend the last attempt on a row that stays live … */
  lemma OperatorSpendsTheLastAttempt(t: Task) returns (ops: seq<Op>)
    requires t.state == Reserved && t.attempts == 0 && t.maxAttempts == 2
    ensures var u := Run(t, ops); u.state == Active && u.attempts == u.maxAttempts
    ensures OutcomesRecorded(t, ops)
  {
    var note, advance := RecordOutcome(LIMITED), AdvanceOutcome(true, Some(LIMITED), false, true);
    ops := [Activate, note, advance, Operator, Activate];
    RunFive(t, Activate, note, advance, Operator, Activate);
    hide Run;
    var u := Apply(t, Activate);
    assert u.state == Active && u.attempts == 0 && Apply(u, note) == u;
    var v := Apply(u, advance);
    assert v.state == Replacing && v.recovery && v.attempts == 1;
    var w := Apply(v, Operator);
    assert w.state == Replacing && w.attempts == 2;
    assert ops[..1] == [Activate] && ops[..2] == [Activate, note];
    assert WasRecorded(t, ops, 2, LIMITED) by {
      assert ops[1] == note;
    }
  }

  /**
   … and exactly then its failures can no longer be recorded: a failure of a row in a legal
   state is recorded, as a block, a loss or exhaustion, if and only if an attempt is left.
   */
  lemma FailuresAreRecordedWhileAttemptsRemain(t: Task, reason: string)
    requires t.state in {Reserved, Active, Replacing}
    ensures Apply(t, Lose(Some(reason), None)).state in {Lost, Exhausted} <==> t.attempts < t.maxAttempts
    ensures t.state == Active ==>
              (Apply(t, ProcessFailed(reason)).state in {Blocked, Exhausted} <==> t.attempts < t.maxAttempts)
    ensures t.state != Active ==>
              (Apply(t, Reject(reason)).state in {Blocked, Exhausted} <==> t.attempts < t.maxAttempts)
  {
  }
}
