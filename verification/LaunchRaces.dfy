/**
 Launches across the open fence gate (`sdk.py`, `_journaled_launch`). The native call runs with
 the task's gate open, so the task may be cancelled, lost or replaced under it, other starters may
 launch the same epoch, and the sweeps may end the journal row. A workspace that comes back to a
 task that moved on must not be orphaned.
 */
module LaunchRaces {
  import opened Options
  import T = TaskStore
  import J = EffectJournal

  /** The snapshot a starter launches from. */
  datatype Launcher = Launcher(epoch: nat, version: nat)

  /** A workspace read from a terminal row, to be stopped. */
  datatype Cleanup = Cleanup(epoch: nat, workspace: string)

  /** One task, its journal rows by epoch, and the executor: idempotent by epoch, so `native` is a map. */
  datatype World = World(
    task: T.Task, rows: map<nat, J.Effect>, native: map<nat, string>, stopped: set<string>,
    snapshots: set<Launcher>, granted: set<Launcher>, returned: set<Launcher>,
    intents: set<Cleanup>, acks: set<Cleanup>, superseded: set<nat>)

  datatype Op =
    | Move(step: T.Op)
    | Look
    | Claim(l: Launcher, hash: string, owner: string, ttl: real, now: real)
    | Launch(l: Launcher, workspace: string)
    | Publish(l: Launcher, session: string)
    | Journal(epoch: nat, write: J.Op)         // terminal, refused, expired or lost
    | SweepAdopts(epoch: nat, session: string)
    | SweepSupersedes(epoch: nat)
    | Intend(epoch: nat)
    | Stop(c: Cleanup)
    | Ack(c: Cleanup)

  function Row(w: World, e: nat): Option<J.Effect> {
    if e in w.rows then Some(w.rows[e]) else None
  }

  function Write(w: World, e: nat, op: J.Op): World {
    var r := J.Apply(Row(w, e), op);
    if r.Some? then w.(rows := w.rows[e := r.value]) else w
  }

  predicate Unchanged(w: World, l: Launcher) {
    w.task.epoch == l.epoch && w.task.version == l.version
  }

  predicate Ended(w: World, e: nat) {
    e in w.rows && w.rows[e].state == J.Terminal
  }

  /** The gate closes again: bind the session, or leave the workspace on a terminal row. */
  function Published(w: World, l: Launcher, session: string): World
    requires l.epoch in w.native
  {
    var workspace := w.native[l.epoch];
    if Unchanged(w, l) then Write(w, l.epoch, J.MarkLaunched(workspace, session))
    else if Ended(w, l.epoch) then Write(w, l.epoch, J.MarkCleanup(workspace)).(superseded := w.superseded + {l.epoch})
    else Write(w, l.epoch, J.MarkSuperseded(workspace)).(superseded := w.superseded + {l.epoch})
  }

  predicate PlainWrite(op: J.Op) {
    op.MarkTerminal? || op.MarkRefused? || op.Retire? || op.RecordLoss?
  }

  /** Whether `reserve` lets the caller go on to the native call. */
  predicate MayLaunch(row: Option<J.Effect>, hash: string, owner: string, now: real) {
    var d := J.Decide(row, hash, owner, now);
    d.Granted? || (d.Adopted? && (row.value.workspace.None? || row.value.session.None?))
  }

  function Apply(w: World, op: Op): World {
    match op
    case Move(step) => w.(task := T.Apply(w.task, step))
    case Look => w.(snapshots := w.snapshots + {Launcher(w.task.epoch, w.task.version)})
    case Claim(l, hash, owner, ttl, now) =>
      if l !in w.snapshots then w
      else
        var v := Write(w, l.epoch, J.Reserve(hash, owner, ttl, now));
        if MayLaunch(Row(w, l.epoch), hash, owner, now) then v.(granted := w.granted + {l}) else v
    case Launch(l, workspace) =>
      if l !in w.granted then w
      else w.(native := if l.epoch in w.native then w.native else w.native[l.epoch := workspace],
              returned := w.returned + {l})
    case Publish(l, session) =>
      if l !in w.returned || l.epoch !in w.native then w else Published(w, l, session)
    case Journal(e, write) => if PlainWrite(write) then Write(w, e, write) else w
    case SweepAdopts(e, session) =>
      if e in w.native then Write(w, e, J.MarkLaunched(w.native[e], session)) else w
    case SweepSupersedes(e) =>
      if e in w.native then Write(w, e, J.MarkSuperseded(w.native[e])) else w
    case Intend(e) =>
      if Ended(w, e) && w.rows[e].workspace.Some? then
        w.(intents := w.intents + {Cleanup(e, w.rows[e].workspace.value)})
      else w
    case Stop(c) => if c in w.intents then w.(stopped := w.stopped + {c.workspace}, acks := w.acks + {c}) else w
    case Ack(c) => if c in w.acks then Write(w, c.epoch, J.Acknowledge(c.workspace)) else w
  }

  function Run(w: World, ops: seq<Op>): World {
    if ops == [] then w else Apply(Run(w, ops[..|ops| - 1]), ops[|ops| - 1])
  }

  function Start(task: T.Task): World {
    World(task, map[], map[], {}, {}, {}, {}, {}, {}, {})
  }

  /** The terminal row of `e` still names its workspace, or a stop of exactly that workspace has returned. */
  predicate Accounted(w: World, e: nat) {
    && Ended(w, e) && e in w.native
    && (w.rows[e].workspace == Some(w.native[e]) || w.native[e] in w.stopped)
  }

  ghost predicate Inv(w: World) {
    && (forall l :: l in w.granted ==> l.epoch in w.rows)
    && (forall l :: l in w.returned ==> l.epoch in w.native && l.epoch in w.rows)
    && (forall c :: c in w.acks ==> c.workspace in w.stopped)
    && (forall e :: e in w.superseded ==> Accounted(w, e))
  }

  /** A write to one row keeps every other row, and a terminal row forgets its workspace only when it is acknowledged. */
  lemma WriteKeeps(w: World, e: nat, op: J.Op)
    ensures var v := Write(w, e, op);
            && w == v.(rows := w.rows) && w.rows.Keys <= v.rows.Keys
            && (forall x :: x in w.rows && x != e ==> v.rows[x] == w.rows[x])
            && (op.Reserve? ==> e in v.rows)
    ensures Ended(w, e) ==>
              var v := Write(w, e, op);
              && Ended(v, e)
              && (v.rows[e].workspace == w.rows[e].workspace
                  || (op.MarkCleanup? && v.rows[e].workspace == Some(op.workspace))
                  || (op.Acknowledge? && w.rows[e].workspace == Some(op.workspace)))
  {
  }

  lemma PublishedAccounts(w: World, l: Launcher, session: string)
    requires l.epoch in w.native && l.epoch in w.rows && !Unchanged(w, l)
    ensures Accounted(Published(w, l, session), l.epoch)
  {
  }

  lemma WriteKeepsAccounted(w: World, e: nat, op: J.Op, x: nat)
    requires Accounted(w, x)
    requires op.Acknowledge? ==> op.workspace in w.stopped
    requires op.MarkCleanup? && e in w.native ==> op.workspace == w.native[e]
    ensures Accounted(Write(w, e, op), x)
  {
    hide Write;
    WriteKeeps(w, e, op);
  }

  lemma WriteKeepsInv(w: World, e: nat, op: J.Op)
    requires Inv(w)
    requires op.Acknowledge? ==> op.workspace in w.stopped
    requires op.MarkCleanup? && e in w.native ==> op.workspace == w.native[e]
    ensures Inv(Write(w, e, op))
  {
    hide Write, Accounted;
    WriteKeeps(w, e, op);
    forall x | x in w.superseded ensures Accounted(Write(w, e, op), x) {
      WriteKeepsAccounted(w, e, op, x);
    }
  }

  lemma PublishKeeps(w: World, l: Launcher, session: string)
    requires Inv(w) && l in w.returned
    ensures Inv(Published(w, l, session))
  {
    var ws := w.native[l.epoch];
    hide Write, Accounted;
    WriteKeepsInv(w, l.epoch, J.MarkLaunched(ws, session));
    WriteKeepsInv(w, l.epoch, J.MarkCleanup(ws));
    WriteKeepsInv(w, l.epoch, J.MarkSuperseded(ws));
    if !Unchanged(w, l) {
      PublishedAccounts(w, l, session);
      var v := if Ended(w, l.epoch) then Write(w, l.epoch, J.MarkCleanup(ws)) else Write(w, l.epoch, J.MarkSuperseded(ws));
      WriteKeeps(w, l.epoch, if Ended(w, l.epoch) then J.MarkCleanup(ws) else J.MarkSuperseded(ws));
      forall e | e in w.superseded ensures Accounted(Published(w, l, session), e) {
        SupersededIsOnlyAMark(v, w.superseded + {l.epoch}, e);
      }
    }
  }

  lemma SupersededIsOnlyAMark(w: World, marks: set<nat>, e: nat)
    ensures Accounted(w.(superseded := marks), e) <==> Accounted(w, e)
  {
  }

  lemma LaunchKeeps(w: World, op: Op)
    requires Inv(w) && (op.Launch? || op.Claim?)
    ensures Inv(Apply(w, op))
  {
    hide Write, MayLaunch;
    if op.Claim? {
      WriteKeepsInv(w, op.l.epoch, J.Reserve(op.hash, op.owner, op.ttl, op.now));
      WriteKeeps(w, op.l.epoch, J.Reserve(op.hash, op.owner, op.ttl, op.now));
    }
  }

  lemma StopKeeps(w: World, op: Op)
    requires Inv(w) && (op.Stop? || op.Ack? || op.Intend? || op.Look? || op.Move?)
    ensures Inv(Apply(w, op))
  {
    hide Write, T.Apply;
    if op.Ack? && op.c in w.acks {
      WriteKeepsInv(w, op.c.epoch, J.Acknowledge(op.c.workspace));
    }
  }

  lemma StepKeeps(w: World, op: Op)
    requires Inv(w)
    ensures Inv(Apply(w, op))
  {
    hide Inv, Write, T.Apply;
    match op
    case Claim(_, _, _, _, _) => LaunchKeeps(w, op);
    case Launch(_, _) => LaunchKeeps(w, op);
    case Publish(l, session) =>
      if l in w.returned && l.epoch in w.native {
        PublishKeeps(w, l, session);
      }
    case Journal(e, write) =>
      if PlainWrite(write) {
        WriteKeepsInv(w, e, write);
      }
    case SweepAdopts(e, session) =>
      if e in w.native {
        WriteKeepsInv(w, e, J.MarkLaunched(w.native[e], session));
      }
    case SweepSupersedes(e) =>
      if e in w.native {
        WriteKeepsInv(w, e, J.MarkSuperseded(w.native[e]));
      }
    case _ => StopKeeps(w, op);
  }

  lemma {:induction false} RunKeeps(w: World, ops: seq<Op>)
    requires Inv(w)
    ensures Inv(Run(w, ops))
    decreases |ops|
  {
    hide Inv, Apply;
    if ops != [] {
      RunKeeps(w, ops[..|ops| - 1]);
      StepKeeps(Run(w, ops[..|ops| - 1]), ops[|ops| - 1]);
    }
  }

  /**
   No superseded workspace is orphaned: in every run, once a launch of epoch `e` came back to a
   task that had moved, the workspace of `e` stays on its terminal row until a stop of exactly
   that workspace has returned.
   */
  lemma SupersededWorkspacesAreKept(task: T.Task, ops: seq<Op>, e: nat)
    requires e in Run(Start(task), ops).superseded
    ensures Accounted(Run(Start(task), ops), e)
  {
    hide Run, Accounted;
    RunKeeps(Start(task), ops);
  }

  // ---- a launch is bound only to the task it was made for ----

  function Moves(ops: seq<Op>): seq<T.Op> {
    if ops == [] then []
    else Moves(ops[..|ops| - 1]) + if ops[|ops| - 1].Move? then [ops[|ops| - 1].step] else []
  }

  lemma {:induction false} TaskOfRun(w: World, ops: seq<Op>)
    ensures Run(w, ops).task == T.Run(w.task, Moves(ops))
    decreases |ops|
  {
    hide T.Apply, Write, Published, T.Run;
    if ops == [] {
      assert T.Run(w.task, []) == w.task by { T.RunEmpty(w.task); }
    } else {
      var before, op := ops[..|ops| - 1], ops[|ops| - 1];
      TaskOfRun(w, before);
      OnlyMovesMove(Run(w, before), op);
      if op.Move? {
        T.RunSnoc(w.task, Moves(before), op.step);
      } else {
        assert Moves(before) + [] == Moves(before);
      }
    }
  }

  lemma OnlyMovesMove(w: World, op: Op)
    ensures Apply(w, op).task == if op.Move? then T.Apply(w.task, op.step) else w.task
  {
    hide T.Apply, J.Apply, MayLaunch;
  }

  /**
   A starter that looked at a task and came back after any run binds its session if and only if
   the task's epoch and version are what it saw and the journal row has not ended; the task then
   has every lifecycle column it was launched for.
   */
  lemma LaunchedOnlyIfUnchanged(w: World, ops: seq<Op>, session: string)
    requires var l, v := Launcher(w.task.epoch, w.task.version), Run(w, ops);
             l in v.returned && l.epoch in v.native && l.epoch in v.rows
    ensures var l, v := Launcher(w.task.epoch, w.task.version), Run(w, ops);
            var u := Apply(v, Publish(l, session));
            && (u.rows[l.epoch].state == J.Launched <==> Unchanged(v, l) && !Ended(v, l.epoch))
            && (u.rows[l.epoch].state == J.Launched ==>
                  && u.rows[l.epoch].workspace == Some(v.native[l.epoch]) && u.rows[l.epoch].session == Some(session)
                  && T.SameLifecycle(w.task, u.task))
  {
    hide Run, T.Run;
    TaskOfRun(w, ops);
    T.Lifecycle(w.task, Moves(ops));
  }

  /**
   The one way a returned workspace is named by no row: in every run, a starter that comes back
   leaves it on the row of its epoch if and only if it was there already, or the task has moved, or
   the row is still open. Otherwise `mark_launched` raises and leaves no cleanup intent.
   */
  lemma WorkspaceIsRecordedUnlessTheRowEndedAlone(task: T.Task, ops: seq<Op>, l: Launcher, session: string)
    requires l in Run(Start(task), ops).returned
    ensures var w := Run(Start(task), ops);
            && l.epoch in w.rows && l.epoch in w.native && l.epoch in Apply(w, Publish(l, session)).rows
            && (Apply(w, Publish(l, session)).rows[l.epoch].workspace == Some(w.native[l.epoch]) <==>
                  || w.rows[l.epoch].workspace == Some(w.native[l.epoch])
                  || !Unchanged(w, l) || !Ended(w, l.epoch))
  {
    hide Run, Accounted;
    RunKeeps(Start(task), ops);
  }

  /**
   Such a run: the sweep has retired the expired reservation of a running launch and stopped before
   it finished the task, when the starter comes back to a task that did not move.
   */
  lemma RowCanEndAlone(task: T.Task, workspace: string, session: string) returns (ops: seq<Op>)
    ensures var w, l := Run(Start(task), ops), Launcher(task.epoch, task.version);
            && l in w.returned && Unchanged(w, l) && Ended(w, l.epoch) && w.native == map[task.epoch := workspace]
            && Apply(w, Publish(l, session)) == w && w.rows[l.epoch].workspace == None
            && w.intents == {} && w.superseded == {}
  {
    var e, l := task.epoch, Launcher(task.epoch, task.version);
    var reserved := J.NewEffect("request", "owner", 120.0);
    var retired := reserved.(state := J.Terminal, outcome := Some("lost:reservation-expired"));
    ops := [Look, Claim(l, "request", "owner", 120.0, 0.0), Launch(l, workspace), Journal(e, J.Retire(121.0))];
    var a := Start(task).(snapshots := {l});
    var b := a.(rows := map[e := reserved], granted := {l});
    var c := b.(native := map[e := workspace], returned := {l});
    var d := c.(rows := map[e := retired]);
    assert Apply(Start(task), ops[0]) == a;
    assert Apply(a, ops[1]) == b;
    assert Apply(b, ops[2]) == c;
    assert Apply(c, ops[3]) == d;
    RunFour(Start(task), ops[0], ops[1], ops[2], ops[3]);
  }

  lemma RunFour(w: World, a: Op, b: Op, c: Op, d: Op)
    ensures Run(w, [a, b, c, d]) == Apply(Apply(Apply(Apply(w, a), b), c), d)
  {
    hide Apply;
    assert [a, b, c, d][..3] == [a, b, c] && [a, b, c][..2] == [a, b] && [a, b][..1] == [a] && [a][..0] == [];
    assert Run(w, [a]) == Apply(Run(w, []), a);
    assert Run(w, [a, b]) == Apply(Run(w, [a]), b);
    assert Run(w, [a, b, c]) == Apply(Run(w, [a, b]), c);
  }

  // ---- launches and cleanups get on ----

  /** A first launch that nothing disturbs is bound: the row names the workspace and the session. */
  lemma UndisturbedLaunchIsBound(w: World, hash: string, owner: string, ttl: real, now: real, workspace: string, session: string)
    requires w.task.epoch !in w.rows && w.task.epoch !in w.native
    ensures var l := Launcher(w.task.epoch, w.task.version);
            var u := Apply(Apply(Apply(Apply(w, Look), Claim(l, hash, owner, ttl, now)), Launch(l, workspace)), Publish(l, session));
            && u.task == w.task && u.native == w.native[l.epoch := workspace]
            && u.rows == w.rows[l.epoch := J.Effect(hash, J.Launched, Some(workspace), Some(session), None, owner, now + ttl, None)]
  {
    var l := Launcher(w.task.epoch, w.task.version);
    var a := Apply(w, Look);
    assert a == w.(snapshots := w.snapshots + {l});
    var b := Apply(a, Claim(l, hash, owner, ttl, now));
    var reserved := J.Effect(hash, J.Reserved, None, None, None, owner, now + ttl, None);
    assert b == a.(rows := w.rows[l.epoch := reserved], granted := w.granted + {l});
    var c := Apply(b, Launch(l, workspace));
    assert c == b.(native := w.native[l.epoch := workspace], returned := w.returned + {l});
    var bound := J.Effect(hash, J.Launched, Some(workspace), Some(session), None, owner, now + ttl, None);
    assert w.rows[l.epoch := reserved][l.epoch := bound] == w.rows[l.epoch := bound];
  }

  /** A workspace on an ended row can be stopped by one reader of the row, and is then off it. */
  lemma CleanupsFinish(w: World, e: nat, workspace: string)
    requires Ended(w, e) && w.rows[e].workspace == Some(workspace)
    ensures var c := Cleanup(e, workspace);
            var u := Apply(Apply(Apply(w, Intend(e)), Stop(c)), Ack(c));
            && workspace in u.stopped && u.rows == w.rows[e := w.rows[e].(workspace := None)] && u.task == w.task
  {
    var c := Cleanup(e, workspace);
    var a := Apply(w, Intend(e));
    assert a == w.(intents := w.intents + {c});
    var b := Apply(a, Stop(c));
    assert b == a.(stopped := w.stopped + {workspace}, acks := w.acks + {c});
  }
}
