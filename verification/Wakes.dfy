/**
 The wake outbox (`wakes.py`): one row per satisfied parent predicate, armed in the transaction
 that moves the child, gated by the parent's watermark and delivered by pumps that hold claim
 tokens. A run interleaves any number of pumps, expired leases and crashed holders: every claim
 ever handed out stays usable by its holder for ever.
 */
module Wakes {
  import opened Options
  import T = TaskStore

  type TaskId = T.TaskId

  datatype Predicate = AnyChildBlocked | AllChildrenTerminal | AnyChildLost | AnyChildStalled | AnyChildOverBudget

  datatype Reason = LostReason | SilentReason(finding: T.Liveness) | OverBudgetReason

  /** The dedupe keys; the texts of `dedupe_key` and `episode_key` are read as injective. */
  datatype Key =
    | CohortKey(cohort: TaskId, waits: Predicate)
    | EpisodeKey(child: TaskId, epoch: nat, reason: Reason, episode: nat, escalation: bool)

  datatype WakeState = Pending | Claimed | Delivered | Resolved

  /** `seen` is the parent's event counter when the cohort was read to render the message. */
  datatype Payload = Message(seen: nat, text: string) | Suppressed(note: string)

  datatype Wake = Wake(
    parent: TaskId, waitsFor: Predicate, key: Key, eventSeq: Option<nat>, createdAt: real, state: WakeState,
    expires: Option<real>, token: Option<nat>, payload: Option<Payload>, resolution: Option<string>)

  /** Rows are never deleted, so a wake's identifier is its place in the outbox. */
  datatype DB = DB(tasks: map<TaskId, T.Task>, wakes: seq<Wake>, nextToken: nat)

  const COHORT_PREDICATES: seq<Predicate> := [AnyChildBlocked, AllChildrenTerminal]

  predicate Live(w: Wake) {
    w.state == Pending || w.state == Claimed
  }

  predicate Told(w: Wake) {
    w.state != Resolved
  }

  predicate LiveKey(wakes: seq<Wake>, key: Key) {
    exists i: nat :: i < |wakes| && wakes[i].key == key && Live(wakes[i])
  }

  predicate ToldKey(wakes: seq<Wake>, key: Key) {
    exists i: nat :: i < |wakes| && wakes[i].key == key && Told(wakes[i])
  }

  predicate IsChild(tasks: map<TaskId, T.Task>, c: TaskId, parent: TaskId) {
    c in tasks && tasks[c].parent == Some(parent)
  }

  /** A wait predicate over the child rows alone. */
  predicate Satisfied(tasks: map<TaskId, T.Task>, parent: TaskId, p: Predicate) {
    match p
    case AnyChildBlocked => exists c :: c in tasks && IsChild(tasks, c, parent) && tasks[c].state == T.Blocked
    case AllChildrenTerminal =>
      && (exists c :: c in tasks && IsChild(tasks, c, parent))
      && (forall c :: c in tasks && IsChild(tasks, c, parent) ==> tasks[c].state !in T.LIVE_STATES)
    case _ => false
  }

  function SatisfiedPredicates(tasks: map<TaskId, T.Task>, parent: TaskId): seq<Predicate> {
    (if Satisfied(tasks, parent, AnyChildBlocked) then [AnyChildBlocked] else [])
    + (if Satisfied(tasks, parent, AllChildrenTerminal) then [AllChildrenTerminal] else [])
  }

  // ---- arming ----

  function CohortWake(parent: TaskId, p: Predicate, event: nat, now: real): Wake {
    Wake(parent, p, CohortKey(parent, p), Some(event), now, Pending, None, None, None, None)
  }

  function LivenessPredicate(reason: Reason): Predicate {
    match reason
    case LostReason => AnyChildLost
    case OverBudgetReason => AnyChildOverBudget
    case SilentReason(_) => AnyChildStalled
  }

  function EpisodeWake(parent: TaskId, key: Key, now: real): Wake
    requires key.EpisodeKey?
  {
    Wake(parent, LivenessPredicate(key.reason), key, None, now, Pending, None, None, None, None)
  }

  /** `INSERT OR IGNORE` under the unique index over pending and claimed rows. */
  function Insert(wakes: seq<Wake>, w: Wake): seq<Wake> {
    if LiveKey(wakes, w.key) then wakes else wakes + [w]
  }

  function InsertAll(wakes: seq<Wake>, parent: TaskId, ps: seq<Predicate>, event: nat, now: real): seq<Wake> {
    if ps == [] then wakes
    else Insert(InsertAll(wakes, parent, ps[..|ps| - 1], event, now), CohortWake(parent, ps[|ps| - 1], event, now))
  }

  predicate Behind(db: DB, parent: TaskId) {
    parent in db.tasks && db.tasks[parent].childEventSeq > db.tasks[parent].lastWokenSeq
  }

  function RecordCohort(db: DB, parent: TaskId, now: real): DB {
    if Behind(db, parent) then
      db.(wakes := InsertAll(db.wakes, parent, SatisfiedPredicates(db.tasks, parent),
                             db.tasks[parent].childEventSeq, now))
    else db
  }

  function ArmOnce(db: DB, parent: TaskId, key: Key, now: real): DB
    requires key.EpisodeKey?
  {
    if ToldKey(db.wakes, key) then db else db.(wakes := Insert(db.wakes, EpisodeWake(parent, key, now)))
  }

  predicate ReportsLoss(t: T.Task) {
    || t.state == T.Lost
    || (t.state == T.Exhausted && "exhausted: lost:" <= Else(t.result, ""))
  }

  predicate Escalating(t: T.Task, now: real, timeout: real) {
    t.livenessWakes == 1 && t.since.Some? && now - t.since.value >= timeout
  }

  function StallKey(child: TaskId, t: T.Task, now: real, timeout: real): Key {
    EpisodeKey(child, t.epoch, SilentReason(t.liveness), t.episode, Escalating(t, now, timeout))
  }

  predicate StallDue(t: T.Task, now: real, timeout: real) {
    T.StretchOf(t.liveness) == T.Silent && (t.livenessWakes == 0 || Escalating(t, now, timeout))
  }

  /** Insert and counter move together, or neither does. */
  function ArmStall(db: DB, child: TaskId, parent: TaskId, now: real, timeout: real): DB
    requires child in db.tasks
  {
    var t := db.tasks[child];
    if !StallDue(t, now, timeout) || LiveKey(db.wakes, StallKey(child, t, now, timeout)) then db
    else db.(wakes := db.wakes + [EpisodeWake(parent, StallKey(child, t, now, timeout), now)],
             tasks := db.tasks[child := t.(livenessWakes := t.livenessWakes + 1, since := Some(now))])
  }

  function RecordLiveness(db: DB, child: TaskId, now: real, timeout: real): DB {
    if child !in db.tasks || db.tasks[child].parent.None? then db
    else
      var t, parent := db.tasks[child], db.tasks[child].parent.value;
      if ReportsLoss(t) then ArmOnce(db, parent, EpisodeKey(child, t.epoch, LostReason, 1, false), now)
      else if t.state != T.Active then db
      else
        var d := ArmStall(db, child, parent, now, timeout);
        if t.overBudget then ArmOnce(d, parent, EpisodeKey(child, t.epoch, OverBudgetReason, 1, false), now) else d
  }

  const PROGRESS_TIMEOUT: real := 1500.0

  function Bumped(tasks: map<TaskId, T.Task>, parent: TaskId): map<TaskId, T.Task> {
    if parent in tasks then tasks[parent := tasks[parent].(childEventSeq := tasks[parent].childEventSeq + 1)] else tasks
  }

  function AfterFinish(db: DB, id: TaskId, row: T.Task, now: real): DB {
    var moved := db.(tasks := db.tasks[id := row]);
    if row.parent.None? then moved
    else RecordLiveness(RecordCohort(moved.(tasks := Bumped(moved.tasks, row.parent.value)), row.parent.value, now),
                        id, now, PROGRESS_TIMEOUT)
  }

  function FinishWithWake(db: DB, id: TaskId, target: T.State, result: Option<string>, version: Option<nat>,
                          charge: bool, now: real): Option<DB>
  {
    if id !in db.tasks then None
    else
      var row := T.Finish(db.tasks[id], target, result, version, charge);
      if row.None? then None else Some(AfterFinish(db, id, row.value, now))
  }

  // ---- claims and settlements ----

  predicate Claimable(w: Wake, now: real) {
    w.state == Pending || (w.state == Claimed && w.expires.Some? && w.expires.value < now)
  }

  function ClaimOne(db: DB, id: nat, now: real, seconds: real): DB {
    if id < |db.wakes| && Claimable(db.wakes[id], now) then
      db.(wakes := db.wakes[id := db.wakes[id].(state := Claimed, expires := Some(now + seconds), token := Some(db.nextToken))],
          nextToken := db.nextToken + 1)
    else db
  }

  /** `claim()`: every claimable row in the order they were written, each with a token of its own. */
  function ClaimFirst(db: DB, n: nat, now: real, seconds: real): DB {
    if n == 0 then db else ClaimOne(ClaimFirst(db, n - 1, now, seconds), n - 1, now, seconds)
  }

  /** What a pump remembers of a row it claimed. */
  datatype Held = Held(id: nat, token: nat, parent: TaskId, eventSeq: Option<nat>)

  function Snapshot(id: nat, w: Wake): Held
    requires w.token.Some?
  {
    Held(id, w.token.value, w.parent, w.eventSeq)
  }

  predicate Holds(wakes: seq<Wake>, h: Held) {
    h.id < |wakes| && wakes[h.id].state == Claimed && wakes[h.id].token == Some(h.token)
  }

  function Coalesce(a: Option<Payload>, b: Option<Payload>): Option<Payload> {
    if a.Some? then a else b
  }

  function Persist(wakes: seq<Wake>, h: Held, selected: Payload): seq<Wake> {
    if Holds(wakes, h) then wakes[h.id := wakes[h.id].(payload := Coalesce(wakes[h.id].payload, Some(selected)))]
    else wakes
  }

  function SettledRow(w: Wake, state: WakeState, resolution: Option<string>, payload: Option<Payload>): Wake {
    w.(state := state, resolution := resolution, payload := Coalesce(w.payload, payload), expires := None)
  }

  function Woken(tasks: map<TaskId, T.Task>, parent: TaskId, event: nat): map<TaskId, T.Task> {
    if parent in tasks && tasks[parent].lastWokenSeq < event then tasks[parent := tasks[parent].(lastWokenSeq := event)]
    else tasks
  }

  function Settle(db: DB, h: Held, delivered: bool, resolution: Option<string>, payload: Option<Payload>): DB {
    if !Holds(db.wakes, h) then db
    else
      var state := if delivered then Delivered else Resolved;
      var d := db.(wakes := db.wakes[h.id := SettledRow(db.wakes[h.id], state, resolution, payload)]);
      if delivered && h.eventSeq.Some? then d.(tasks := Woken(d.tasks, h.parent, h.eventSeq.value)) else d
  }

  // ---- the outbox ----

  class Outbox {
    var tasks: map<TaskId, T.Task>
    var wakes: seq<Wake>
    var nextToken: nat

    function Contents(): DB
      reads this
    {
      DB(tasks, wakes, nextToken)
    }

    constructor ()
      ensures Contents() == DB(map[], [], 0)
    {
      tasks, wakes, nextToken := map[], [], 0;
    }

    method InsertOrIgnore(w: Wake) returns (inserted: bool)
      modifies this
      ensures Contents() == old(Contents()).(wakes := Insert(old(wakes), w))
      ensures inserted <==> !LiveKey(old(wakes), w.key)
    {
      inserted := !LiveKey(wakes, w.key);
      if inserted {
        wakes := wakes + [w];
      }
    }

    method RecordWakes(parent: TaskId, now: real)
      modifies this
      ensures Contents() == RecordCohort(old(Contents()), parent, now)
    {
      if parent !in tasks || tasks[parent].childEventSeq <= tasks[parent].lastWokenSeq {
        return;
      }
      var event := tasks[parent].childEventSeq;
      var due := SatisfiedPredicates(tasks, parent);
      ghost var before := Contents();
      var i := 0;
      while i < |due|
        invariant 0 <= i <= |due|
        invariant Contents() == before.(wakes := InsertAll(before.wakes, parent, due[..i], event, now))
      {
        assert due[..i + 1][..i] == due[..i];
        var _ := InsertOrIgnore(CohortWake(parent, due[i], event, now));
        i := i + 1;
      }
      assert due[..i] == due;
    }

    method Arm(parent: TaskId, key: Key, now: real, oneShot: bool) returns (armed: bool)
      requires key.EpisodeKey?
      modifies this
      ensures Contents() == if oneShot then ArmOnce(old(Contents()), parent, key, now)
                            else old(Contents()).(wakes := Insert(old(wakes), EpisodeWake(parent, key, now)))
      ensures armed <==> wakes != old(wakes)
    {
      if oneShot && ToldKey(wakes, key) {
        return false;
      }
      armed := InsertOrIgnore(EpisodeWake(parent, key, now));
    }

    method RecordLivenessWakes(child: TaskId, now: real, timeout: real)
      modifies this
      ensures Contents() == RecordLiveness(old(Contents()), child, now, timeout)
    {
      if child !in tasks || tasks[child].parent.None? {
        return;
      }
      var t := tasks[child];
      var parent := t.parent.value;
      if t.state == T.Lost || (t.state == T.Exhausted && "exhausted: lost:" <= Else(t.result, "")) {
        var _ := Arm(parent, EpisodeKey(child, t.epoch, LostReason, 1, false), now, true);
        return;
      }
      if t.state != T.Active {
        return;
      }
      if T.StretchOf(t.liveness) == T.Silent {
        var escalating := t.livenessWakes == 1 && t.since.Some? && now - t.since.value >= timeout;
        if t.livenessWakes == 0 || escalating {
          var armed := Arm(parent, EpisodeKey(child, t.epoch, SilentReason(t.liveness), t.episode, escalating), now, false);
          if armed {
            tasks := tasks[child := t.(livenessWakes := t.livenessWakes + 1, since := Some(now))];
          }
        }
      }
      if t.overBudget {
        var _ := Arm(parent, EpisodeKey(child, t.epoch, OverBudgetReason, 1, false), now, true);
      }
    }

    /** One transaction: the transition, the event, and whatever wakes it arms. */
    method Finish(id: TaskId, target: T.State, result: Option<string>, version: Option<nat>, charge: bool, now: real)
      returns (ok: bool)
      modifies this
      ensures ok <==> FinishWithWake(old(Contents()), id, target, result, version, charge, now).Some?
      ensures Contents() == Else(FinishWithWake(old(Contents()), id, target, result, version, charge, now), old(Contents()))
    {
      hide T.Finish, RecordCohort, RecordLiveness;
      if id !in tasks {
        return false;
      }
      var row := T.Finish(tasks[id], target, result, version, charge);
      if row.None? {
        return false;
      }
      ok := true;
      tasks := tasks[id := row.value];
      if row.value.parent.Some? {
        var parent := row.value.parent.value;
        if parent in tasks {
          tasks := tasks[parent := tasks[parent].(childEventSeq := tasks[parent].childEventSeq + 1)];
        }
        RecordWakes(parent, now);
        RecordLivenessWakes(id, now, PROGRESS_TIMEOUT);
      }
    }

    method Claim(now: real, seconds: real)
      modifies this
      ensures Contents() == ClaimFirst(old(Contents()), |old(wakes)|, now, seconds)
    {
      ghost var before := Contents();
      var i := 0;
      while i < |wakes|
        invariant 0 <= i <= |wakes| == |before.wakes|
        invariant Contents() == ClaimFirst(before, i, now, seconds)
      {
        if Claimable(wakes[i], now) {
          wakes := wakes[i := wakes[i].(state := Claimed, expires := Some(now + seconds), token := Some(nextToken))];
          nextToken := nextToken + 1;
        }
        i := i + 1;
      }
    }

    /** `_persist_payload`: the bytes to send, or nothing when another pump holds the row now. */
    method PersistPayload(h: Held, selected: Payload) returns (bytes: Option<Payload>)
      modifies this
      ensures Contents() == old(Contents()).(wakes := Persist(old(wakes), h, selected))
      ensures bytes == if Holds(old(wakes), h) then wakes[h.id].payload else None
      ensures bytes.Some? ==> bytes == Coalesce(old(wakes)[h.id].payload, Some(selected))
    {
      if !Holds(wakes, h) {
        return None;
      }
      wakes := wakes[h.id := wakes[h.id].(payload := Coalesce(wakes[h.id].payload, Some(selected)))];
      bytes := wakes[h.id].payload;
    }

    method SettleClaim(h: Held, delivered: bool, resolution: Option<string>, payload: Option<Payload>) returns (won: bool)
      modifies this
      ensures won <==> Holds(old(wakes), h)
      ensures Contents() == Settle(old(Contents()), h, delivered, resolution, payload)
    {
      won := Holds(wakes, h);
      if won {
        var row := wakes[h.id];
        wakes := wakes[h.id := SettledRow(row, if delivered then Delivered else Resolved, resolution, payload)];
        if delivered && h.eventSeq.Some? && h.parent in tasks {
          var seen := tasks[h.parent].lastWokenSeq;
          var event := h.eventSeq.value;
          tasks := tasks[h.parent := tasks[h.parent].(lastWokenSeq := if seen < event then event else seen)];
          assert seen >= event ==> tasks == old(tasks);
        }
      }
    }
  }
}
