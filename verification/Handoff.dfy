/**
 Handing a quarantined session's open commands to one successor (`succession.py`,
 `transfer_ownership`). Any number of runs for one source interleave, each may stop for good after
 any step, and the source's queue, the rest of the ownership table and the caller's arguments are
 arbitrary.
 */
module Handoff {
  import opened Options
  import opened Succession

  /** The text `{logical}:command:{id}` is read as injective, and as never a caller's own key. */
  datatype DedupeKey = Own(text: string) | Derived(logical: string, id: nat)

  datatype Command = Command(body: string, own: Option<string>, open: bool)

  /** One entry of a successor's queue. */
  datatype Copy = Copy(session: SessionId, key: DedupeKey, command: nat, body: string)

  /** What one run of the handoff holds in its local variables. */
  datatype Progress = Progress(
    key: string, recorded: Option<SessionId>, listed: Option<seq<nat>>, successor: Option<SessionId>,
    checked: bool, forwarded: nat, cancelled: nat)

  datatype World = World(
    recs: Records, commands: map<nat, Command>, queue: seq<Copy>, runs: map<nat, Progress>, cancelled: set<nat>)

  datatype Step =
    | Begin(run: nat, logicalKey: Option<string>, reason: string)
    | ListOpen(run: nat, ids: seq<nat>)
    | Adopt(run: nat)
    | Spawn(run: nat, spawned: SessionId)
    | Check(run: nat)
    | Forward(run: nat)
    | Cancel(run: nat, possible: bool)          // without an interrupt or a process there is nothing to cancel
    | Enqueue(id: nat, body: string, own: Option<string>)
    | EndCommand(id: nat)                       // a command that finishes by itself
    | Elsewhere(op: Succession.Op)              // any other retirement or link, the source's own included

  function Or(key: Option<string>, fallback: string): string {
    if key.Some? && key.value != "" then key.value else fallback
  }

  function KeyOf(logical: string, id: nat, c: Command): DedupeKey {
    if c.own.Some? && c.own.value != "" then Own(c.own.value) else Derived(logical, id)
  }

  ghost predicate IsOpenListing(commands: map<nat, Command>, ids: seq<nat>) {
    && (forall i :: 0 <= i < |ids| ==> ids[i] in commands && commands[ids[i]].open)
    && (forall c :: c in commands && commands[c].open ==> c in ids)
  }

  predicate Queued(queue: seq<Copy>, session: SessionId, key: DedupeKey) {
    exists i :: 0 <= i < |queue| && queue[i].session == session && queue[i].key == key
  }

  /** cdesktop's idempotent enqueue. */
  function Sent(queue: seq<Copy>, copy: Copy): seq<Copy> {
    if Queued(queue, copy.session, copy.key) then queue else queue + [copy]
  }

  /** The source queue is idempotent by its own dedupe keys as well. */
  predicate OwnKeyFree(commands: map<nat, Command>, own: Option<string>) {
    own.Some? && own.value != "" ==> forall c :: c in commands ==> commands[c].own != own
  }

  ghost function TakeStep(source: SessionId, w: World, step: Step): World {
    match step
    case Begin(r, logicalKey, reason) =>
      if r in w.runs then w
      else
        var key := Or(logicalKey, "handoff:" + source);
        var recs := RetiredIn(w.recs, source, Superseded, reason, Some(key));
        w.(recs := recs,
           runs := w.runs[r := Progress(Or(recs[source].logicalKey, key), recs[source].successor, None, None, false, 0, 0)])
    case ListOpen(r, ids) =>
      if r in w.runs && w.runs[r].listed.None? && IsOpenListing(w.commands, ids) then
        w.(runs := w.runs[r := w.runs[r].(listed := Some(ids))])
      else w
    case Adopt(r) =>
      if r in w.runs && w.runs[r].listed.Some? && w.runs[r].recorded.Some? then
        w.(runs := w.runs[r := w.runs[r].(successor := w.runs[r].recorded)])
      else w
    case Spawn(r, spawned) =>
      if r in w.runs && w.runs[r].listed.Some? && w.runs[r].recorded.None? && w.runs[r].successor.None? then
        var answer := LinkAnswer(w.recs, source, spawned);
        if answer.Linked? then
          w.(recs := Succession.Apply(w.recs, LinkTo(source, spawned)),
             runs := w.runs[r := w.runs[r].(successor := Some(spawned))])
        else if answer.AlreadyLinked? then w.(runs := w.runs[r := w.runs[r].(successor := Some(spawned))])
        else w
      else w
    case Check(r) =>
      if r in w.runs && w.runs[r].successor.Some? && w.runs[r].successor.value !in w.recs then
        w.(runs := w.runs[r := w.runs[r].(checked := true)])
      else w
    case Forward(r) =>
      if r in w.runs && MayForward(w, w.runs[r]) then
        var p := w.runs[r];
        var id := p.listed.value[p.forwarded];
        w.(runs := w.runs[r := p.(forwarded := p.forwarded + 1)],
           queue := if w.commands[id].body == "" then w.queue
                    else Sent(w.queue, Copy(p.successor.value, KeyOf(p.key, id, w.commands[id]), id, w.commands[id].body)))
      else w
    case Cancel(r, possible) =>
      if r in w.runs && MayCancel(w, w.runs[r]) then
        var p := w.runs[r];
        var id := p.listed.value[p.cancelled];
        var v := w.(runs := w.runs[r := p.(cancelled := p.cancelled + 1)]);
        if possible then
          v.(commands := w.commands[id := w.commands[id].(open := false)], cancelled := w.cancelled + {id})
        else v
      else w
    case Enqueue(id, body, own) =>
      if id !in w.commands && OwnKeyFree(w.commands, own) then
        w.(commands := w.commands[id := Command(body, own, true)])
      else w
    case EndCommand(id) =>
      if id in w.commands then w.(commands := w.commands[id := w.commands[id].(open := false)]) else w
    case Elsewhere(op) => w.(recs := Succession.Apply(w.recs, op))
  }

  predicate MayForward(w: World, p: Progress) {
    p.checked && p.successor.Some? && p.listed.Some? && p.forwarded < |p.listed.value|
    && p.listed.value[p.forwarded] in w.commands
  }

  predicate MayCancel(w: World, p: Progress) {
    p.checked && p.successor.Some? && p.listed.Some? && p.forwarded == |p.listed.value| && p.cancelled < |p.listed.value|
    && p.listed.value[p.cancelled] in w.commands
  }

  ghost function RunSteps(source: SessionId, w: World, steps: seq<Step>): World {
    if steps == [] then w else TakeStep(source, RunSteps(source, w, steps[..|steps| - 1]), steps[|steps| - 1])
  }

  const START: World := World(map[], map[], [], map[], {})

  // ---- what every step keeps ----

  ghost predicate KeysDistinct(commands: map<nat, Command>) {
    forall c, d :: c in commands && d in commands && c != d && commands[c].own.Some? && commands[c].own.value != "" ==>
      commands[c].own != commands[d].own
  }

  ghost predicate Successor(w: World, source: SessionId, s: SessionId) {
    source in w.recs && w.recs[source].successor == Some(s)
  }

  /** Command `id` is in the successor's queue under the key a run with this logical key gives it. */
  ghost predicate Forwarded(w: World, s: SessionId, logical: string, id: nat) {
    id in w.commands && (w.commands[id].body != "" ==> Queued(w.queue, s, KeyOf(logical, id, w.commands[id])))
  }

  ghost predicate ProgressOk(w: World, source: SessionId, p: Progress) {
    && source in w.recs
    && (w.recs[source].logicalKey.Some? && w.recs[source].logicalKey.value != "" ==> p.key == w.recs[source].logicalKey.value)
    && (p.recorded.Some? ==> Successor(w, source, p.recorded.value))
    && (p.successor.Some? ==> Successor(w, source, p.successor.value))
    && (p.listed.None? ==> p.forwarded == 0 && p.cancelled == 0)
    && (p.listed.Some? ==> p.forwarded <= |p.listed.value|)
    && (p.listed.Some? && p.successor.None? ==> p.forwarded == 0)
    && (p.listed.Some? && p.successor.Some? ==>
          forall i :: 0 <= i < p.forwarded ==> Forwarded(w, p.successor.value, p.key, p.listed.value[i]))
  }

  ghost predicate CopyOk(w: World, source: SessionId, copy: Copy) {
    && Successor(w, source, copy.session)
    && copy.command in w.commands && w.commands[copy.command].body == copy.body != ""
    && exists r :: r in w.runs && copy.key == KeyOf(w.runs[r].key, copy.command, w.commands[copy.command])
  }

  ghost predicate CancelledOk(w: World, source: SessionId, id: nat) {
    exists r :: r in w.runs && w.runs[r].successor.Some? && Forwarded(w, w.runs[r].successor.value, w.runs[r].key, id)
  }

  ghost predicate Idempotent(queue: seq<Copy>) {
    forall i, j :: 0 <= i < j < |queue| ==> (queue[i].session, queue[i].key) != (queue[j].session, queue[j].key)
  }

  ghost predicate Inv(source: SessionId, w: World) {
    && KeysDistinct(w.commands) && Idempotent(w.queue)
    && (forall r :: r in w.runs ==> ProgressOk(w, source, w.runs[r]))
    && (forall i :: 0 <= i < |w.queue| ==> CopyOk(w, source, w.queue[i]))
    && (forall id :: id in w.cancelled ==> CancelledOk(w, source, id))
  }

  /** What a step leaves in place: records, command texts, queued copies, and the keys and successors of runs. */
  ghost predicate Extends(a: World, b: World) {
    && Kept(a.recs, b.recs)
    && (forall c :: c in a.commands ==> c in b.commands && b.commands[c].(open := true) == a.commands[c].(open := true))
    && a.queue <= b.queue
    && (forall r :: r in a.runs ==> r in b.runs && b.runs[r].key == a.runs[r].key
                                    && (a.runs[r].successor.Some? ==> b.runs[r].successor == a.runs[r].successor))
  }

  lemma QueuedExtends(a: seq<Copy>, b: seq<Copy>, s: SessionId, key: DedupeKey)
    requires a <= b && Queued(a, s, key)
    ensures Queued(b, s, key)
  {
    var i :| 0 <= i < |a| && a[i].session == s && a[i].key == key;
    assert b[i] == a[i];
  }

  lemma ForwardedExtends(a: World, b: World, s: SessionId, logical: string, id: nat)
    requires Extends(a, b) && Forwarded(a, s, logical, id)
    ensures Forwarded(b, s, logical, id)
  {
    hide Kept, Queued;
    if a.commands[id].body != "" {
      QueuedExtends(a.queue, b.queue, s, KeyOf(logical, id, a.commands[id]));
    }
  }

  lemma SuccessorExtends(a: World, b: World, source: SessionId, s: SessionId)
    requires Extends(a, b) && Successor(a, source, s)
    ensures Successor(b, source, s)
  {
  }

  lemma ProgressExtends(a: World, b: World, source: SessionId, p: Progress)
    requires Extends(a, b) && ProgressOk(a, source, p)
    ensures ProgressOk(b, source, p)
  {
    KeyStays(a.recs, b.recs, source);
    hide Extends, Forwarded, Successor;
    if p.recorded.Some? {
      SuccessorExtends(a, b, source, p.recorded.value);
    }
    if p.successor.Some? {
      SuccessorExtends(a, b, source, p.successor.value);
      if p.listed.Some? {
        forall i | 0 <= i < p.forwarded ensures Forwarded(b, p.successor.value, p.key, p.listed.value[i]) {
          ForwardedExtends(a, b, p.successor.value, p.key, p.listed.value[i]);
        }
      }
    }
  }

  lemma KeyStays(a: Records, b: Records, source: SessionId)
    requires Kept(a, b) && source in a
    ensures source in b && b[source].logicalKey == a[source].logicalKey
  {
    assert b[source].(successor := None) == a[source].(successor := None);
  }

  lemma CopyExtends(a: World, b: World, source: SessionId, copy: Copy)
    requires Extends(a, b) && CopyOk(a, source, copy)
    ensures CopyOk(b, source, copy)
  {
    SuccessorExtends(a, b, source, copy.session);
    hide Kept, Successor;
    var r :| r in a.runs && copy.key == KeyOf(a.runs[r].key, copy.command, a.commands[copy.command]);
    assert copy.key == KeyOf(b.runs[r].key, copy.command, b.commands[copy.command]);
  }

  lemma CancelledExtends(a: World, b: World, source: SessionId, id: nat)
    requires Extends(a, b) && CancelledOk(a, source, id)
    ensures CancelledOk(b, source, id)
  {
    hide Forwarded;
    var r :| r in a.runs && a.runs[r].successor.Some? && Forwarded(a, a.runs[r].successor.value, a.runs[r].key, id);
    ForwardedExtends(a, b, a.runs[r].successor.value, a.runs[r].key, id);
    assert b.runs[r].successor == a.runs[r].successor && b.runs[r].key == a.runs[r].key;
  }

  /** The rest follows the data: only what is new has to be shown. */
  lemma ExtendsKeeps(source: SessionId, a: World, b: World)
    requires Inv(source, a) && Extends(a, b)
    requires KeysDistinct(b.commands) && Idempotent(b.queue)
    requires forall r :: r in b.runs && (r !in a.runs || b.runs[r] != a.runs[r]) ==> ProgressOk(b, source, b.runs[r])
    requires forall i :: |a.queue| <= i < |b.queue| ==> CopyOk(b, source, b.queue[i])
    requires forall id :: id in b.cancelled && id !in a.cancelled ==> CancelledOk(b, source, id)
    ensures Inv(source, b)
  {
    hide ProgressOk, CopyOk, CancelledOk, KeysDistinct, Idempotent;
    assert a.queue <= b.queue;
    forall r | r in b.runs ensures ProgressOk(b, source, b.runs[r]) {
      if r in a.runs && b.runs[r] == a.runs[r] {
        ProgressExtends(a, b, source, a.runs[r]);
      }
    }
    forall i | 0 <= i < |b.queue| ensures CopyOk(b, source, b.queue[i]) {
      if i < |a.queue| {
        assert b.queue[i] == a.queue[i];
        CopyExtends(a, b, source, a.queue[i]);
      }
    }
    forall id | id in b.cancelled ensures CancelledOk(b, source, id) {
      if id in a.cancelled {
        CancelledExtends(a, b, source, id);
      }
    }
  }

  lemma KeptReflexive(recs: Records)
    ensures Kept(recs, recs)
  {
  }

  lemma RetireKept(recs: Records, op: Succession.Op)
    ensures Kept(recs, Succession.Apply(recs, op))
  {
    hide Reaches, Looping;
  }

  lemma BeginKeeps(source: SessionId, w: World, step: Step)
    requires Inv(source, w) && step.Begin?
    ensures Inv(source, TakeStep(source, w, step)) && Extends(w, TakeStep(source, w, step))
  {
    var v := TakeStep(source, w, step);
    KeptReflexive(w.recs);
    if step.run !in w.runs {
      var key := Or(step.logicalKey, "handoff:" + source);
      assert v.recs == Succession.Apply(w.recs, Retire(source, Superseded, step.reason, Some(key)));
      RetireKept(w.recs, Retire(source, Superseded, step.reason, Some(key)));
      assert ProgressOk(v, source, v.runs[step.run]);
      hide ProgressOk, CopyOk, CancelledOk, KeysDistinct, Idempotent, Kept, RetiredIn, TakeStep;
      ExtendsKeeps(source, w, v);
    }
  }

  lemma LookKeeps(source: SessionId, w: World, step: Step)
    requires Inv(source, w) && (step.ListOpen? || step.Adopt? || step.Check?)
    ensures Inv(source, TakeStep(source, w, step)) && Extends(w, TakeStep(source, w, step))
  {
    var v := TakeStep(source, w, step);
    KeptReflexive(w.recs);
    if v != w {
      var r := step.run;
      var p, q := w.runs[r], v.runs[r];
      assert ProgressOk(w, source, p);
      assert v == w.(runs := w.runs[r := q]);
      assert q.key == p.key && (p.successor.Some? ==> q.successor == p.successor);
      assert ProgressOk(w, source, q);
      hide TakeStep, IsOpenListing;
      SameButRuns(w, v, source, q);
      hide ProgressOk, CopyOk, CancelledOk, KeysDistinct, Idempotent, Kept;
      ExtendsKeeps(source, w, v);
    }
  }

  lemma SameButRuns(w: World, v: World, source: SessionId, q: Progress)
    requires v == w.(runs := v.runs) && ProgressOk(w, source, q)
    ensures ProgressOk(v, source, q)
  {
  }

  lemma SpawnKeeps(source: SessionId, w: World, step: Step)
    requires Inv(source, w) && step.Spawn?
    ensures Inv(source, TakeStep(source, w, step)) && Extends(w, TakeStep(source, w, step))
  {
    hide Reaches, Looping;
    var v := TakeStep(source, w, step);
    KeptReflexive(w.recs);
    if v != w {
      RetireKept(w.recs, LinkTo(source, step.spawned));
      assert ProgressOk(w, source, w.runs[step.run]);
      assert Successor(v, source, step.spawned);
      assert ProgressOk(v, source, v.runs[step.run]);
      hide ProgressOk, CopyOk, CancelledOk, KeysDistinct, Idempotent, Kept, LinkAnswer;
      ExtendsKeeps(source, w, v);
    }
  }

  lemma SentKeeps(queue: seq<Copy>, copy: Copy)
    requires Idempotent(queue)
    ensures Idempotent(Sent(queue, copy)) && queue <= Sent(queue, copy) && Queued(Sent(queue, copy), copy.session, copy.key)
  {
    var after := Sent(queue, copy);
    if !Queued(queue, copy.session, copy.key) {
      assert after[|queue|] == copy;
    }
  }

  lemma ForwardKeeps(source: SessionId, w: World, step: Step)
    requires Inv(source, w) && step.Forward?
    ensures Inv(source, TakeStep(source, w, step)) && Extends(w, TakeStep(source, w, step))
  {
    var v := TakeStep(source, w, step);
    KeptReflexive(w.recs);
    if step.run in w.runs && MayForward(w, w.runs[step.run]) {
      var p := w.runs[step.run];
      var id := p.listed.value[p.forwarded];
      var copy := Copy(p.successor.value, KeyOf(p.key, id, w.commands[id]), id, w.commands[id].body);
      assert ProgressOk(w, source, p);
      SentKeeps(w.queue, copy);
      assert Extends(w, v);
      ProgressExtends(w, v, source, p);
      assert Forwarded(v, p.successor.value, p.key, id);
      OneMoreForwarded(v, source, p);
      assert v.runs[step.run] == p.(forwarded := p.forwarded + 1);
      assert copy.key == KeyOf(v.runs[step.run].key, id, v.commands[id]);
      assert copy.body != "" ==> CopyOk(v, source, copy);
      assert v.queue == w.queue || (copy.body != "" && v.queue == w.queue + [copy]);
      hide ProgressOk, CopyOk, CancelledOk, KeysDistinct, Idempotent, Kept, TakeStep, Sent, KeyOf, Forwarded, Queued;
      ExtendsKeeps(source, w, v);
    }
  }

  lemma OneMoreForwarded(v: World, source: SessionId, p: Progress)
    requires ProgressOk(v, source, p) && p.listed.Some? && p.successor.Some? && p.forwarded < |p.listed.value|
    requires Forwarded(v, p.successor.value, p.key, p.listed.value[p.forwarded])
    ensures ProgressOk(v, source, p.(forwarded := p.forwarded + 1))
  {
    hide Forwarded, Successor;
  }

  lemma CancelExtends(source: SessionId, w: World, step: Step)
    requires step.Cancel? && KeysDistinct(w.commands)
    ensures var v := TakeStep(source, w, step); Extends(w, v) && KeysDistinct(v.commands) && v.queue == w.queue
  {
    KeptReflexive(w.recs);
    hide Kept;
  }

  lemma CancelKeeps(source: SessionId, w: World, step: Step)
    requires Inv(source, w) && step.Cancel?
    ensures Inv(source, TakeStep(source, w, step)) && Extends(w, TakeStep(source, w, step))
  {
    CancelExtends(source, w, step);
    hide Extends, KeysDistinct, Idempotent, CopyOk, Kept;
    if step.run in w.runs && MayCancel(w, w.runs[step.run]) {
      var v := TakeStep(source, w, step);
      var p := w.runs[step.run];
      var id := p.listed.value[p.cancelled];
      assert v.runs == w.runs[step.run := p.(cancelled := p.cancelled + 1)] && v.cancelled <= w.cancelled + {id};
      hide TakeStep, MayCancel;
      assert ProgressOk(w, source, p);
      CancelledIsForwarded(w, v, source, p, id);
      ProgressExtends(w, v, source, p);
      CancelledAdvances(v, source, p);
      assert v.runs[step.run].key == p.key && v.runs[step.run].successor == p.successor;
      hide ProgressOk, Forwarded;
      assert CancelledOk(v, source, id);
      hide CancelledOk;
      ExtendsKeeps(source, w, v);
    }
  }

  lemma CancelledIsForwarded(w: World, v: World, source: SessionId, p: Progress, id: nat)
    requires Extends(w, v) && ProgressOk(w, source, p) && p.successor.Some? && p.listed.Some?
    requires p.forwarded == |p.listed.value| && p.cancelled < |p.listed.value| && id == p.listed.value[p.cancelled]
    ensures Forwarded(v, p.successor.value, p.key, id)
  {
    hide Extends;
    assert Forwarded(w, p.successor.value, p.key, p.listed.value[p.cancelled]);
    ForwardedExtends(w, v, p.successor.value, p.key, id);
  }

  lemma CancelledAdvances(v: World, source: SessionId, p: Progress)
    requires ProgressOk(v, source, p) && p.listed.Some?
    ensures ProgressOk(v, source, p.(cancelled := p.cancelled + 1))
  {
    hide Forwarded, Successor;
  }

  lemma QueueMovesExtend(source: SessionId, w: World, step: Step)
    requires KeysDistinct(w.commands) && (step.Enqueue? || step.EndCommand?)
    ensures var v := TakeStep(source, w, step);
            Extends(w, v) && KeysDistinct(v.commands) && v == w.(commands := v.commands)
  {
    KeptReflexive(w.recs);
    hide Kept;
  }

  lemma ElsewhereExtends(source: SessionId, w: World, step: Step)
    requires step.Elsewhere?
    ensures var v := TakeStep(source, w, step); Extends(w, v) && v == w.(recs := v.recs)
  {
    RetireKept(w.recs, step.op);
    hide Kept, Succession.Apply;
  }

  lemma QueueMovesKeep(source: SessionId, w: World, step: Step)
    requires Inv(source, w) && (step.Enqueue? || step.EndCommand? || step.Elsewhere?)
    ensures Inv(source, TakeStep(source, w, step)) && Extends(w, TakeStep(source, w, step))
  {
    hide TakeStep, ProgressOk, CopyOk, CancelledOk, KeysDistinct, Idempotent, Kept, Extends;
    if step.Elsewhere? {
      ElsewhereExtends(source, w, step);
    } else {
      QueueMovesExtend(source, w, step);
    }
    ExtendsKeeps(source, w, TakeStep(source, w, step));
  }

  lemma StepKeeps(source: SessionId, w: World, step: Step)
    requires Inv(source, w)
    ensures Inv(source, TakeStep(source, w, step)) && Extends(w, TakeStep(source, w, step))
  {
    hide Inv, Extends, TakeStep;
    match step
    case Begin(_, _, _) => BeginKeeps(source, w, step);
    case ListOpen(_, _) => LookKeeps(source, w, step);
    case Adopt(_) => LookKeeps(source, w, step);
    case Check(_) => LookKeeps(source, w, step);
    case Spawn(_, _) => SpawnKeeps(source, w, step);
    case Forward(_) => ForwardKeeps(source, w, step);
    case Cancel(_, _) => CancelKeeps(source, w, step);
    case _ => QueueMovesKeep(source, w, step);
  }

  lemma ExtendsTransitive(a: World, b: World, c: World)
    requires Extends(a, b) && Extends(b, c)
    ensures Extends(a, c)
  {
    KeptTransitive(a.recs, b.recs, c.recs);
    hide Kept;
  }

  lemma KeptTransitive(a: Records, b: Records, c: Records)
    requires Kept(a, b) && Kept(b, c)
    ensures Kept(a, c)
  {
    forall s | s in a
      ensures s in c && c[s].(successor := None) == a[s].(successor := None)
              && (a[s].successor.Some? ==> c[s].successor == a[s].successor)
    {
      assert b[s].(successor := None) == a[s].(successor := None);
      assert c[s].(successor := None) == b[s].(successor := None);
    }
  }

  lemma {:induction false} RunKeeps(source: SessionId, w: World, steps: seq<Step>)
    requires Inv(source, w)
    ensures Inv(source, RunSteps(source, w, steps)) && Extends(w, RunSteps(source, w, steps))
    decreases |steps|
  {
    hide Inv, Extends, TakeStep;
    if steps == [] {
      ExtendsReflexive(w);
    } else {
      var before := RunSteps(source, w, steps[..|steps| - 1]);
      RunKeeps(source, w, steps[..|steps| - 1]);
      StepKeeps(source, before, steps[|steps| - 1]);
      ExtendsTransitive(w, before, RunSteps(source, w, steps));
    }
  }

  lemma ExtendsReflexive(w: World)
    ensures Extends(w, w)
  {
    KeptReflexive(w.recs);
  }

  // ---- the promises ----

  lemma StartIsOk(source: SessionId)
    ensures Inv(source, START)
  {
  }

  /** At most one successor is ever recorded … */
  lemma OneSuccessor(source: SessionId, steps: seq<Step>, later: seq<Step>)
    requires var w := RunSteps(source, START, steps); source in w.recs && w.recs[source].successor.Some?
    ensures var w := RunSteps(source, START, steps);
            var v := RunSteps(source, w, later);
            source in v.recs && v.recs[source].successor == w.recs[source].successor
  {
    hide RunSteps, Inv;
    StartIsOk(source);
    RunKeeps(source, START, steps);
    RunKeeps(source, RunSteps(source, START, steps), later);
    assert Kept(RunSteps(source, START, steps).recs, RunSteps(source, RunSteps(source, START, steps), later).recs);
  }

  /** … and every copy any run ever sent is in its queue. */
  lemma CopiesGoToTheSuccessor(source: SessionId, steps: seq<Step>, i: nat)
    requires i < |RunSteps(source, START, steps).queue|
    ensures Successor(RunSteps(source, START, steps), source, RunSteps(source, START, steps).queue[i].session)
  {
    hide RunSteps, ProgressOk, CancelledOk, KeysDistinct, Idempotent;
    StartIsOk(source);
    RunKeeps(source, START, steps);
    assert CopyOk(RunSteps(source, START, steps), source, RunSteps(source, START, steps).queue[i]);
  }

  /** Command `id` itself, with its body, is in the queue of the recorded successor. */
  ghost predicate Delivered(w: World, source: SessionId, id: nat) {
    && id in w.commands
    && exists i :: 0 <= i < |w.queue| && IsCopy(w, source, w.queue[i], id)
  }

  ghost predicate IsCopy(w: World, source: SessionId, copy: Copy, id: nat)
    requires id in w.commands
  {
    Successor(w, source, copy.session) && copy.command == id && copy.body == w.commands[id].body
  }

  /** A copy under a command's key is a copy of that command. */
  lemma KeyNamesCommand(commands: map<nat, Command>, a: string, b: string, c: nat, d: nat)
    requires KeysDistinct(commands) && c in commands && d in commands
    requires KeyOf(a, c, commands[c]) == KeyOf(b, d, commands[d])
    ensures c == d
  {
  }

  lemma ForwardedIsDelivered(source: SessionId, w: World, s: SessionId, logical: string, id: nat)
    requires Inv(source, w) && Forwarded(w, s, logical, id) && w.commands[id].body != "" && Successor(w, source, s)
    ensures Delivered(w, source, id)
  {
    hide ProgressOk, CancelledOk, KeyOf, KeysDistinct, Idempotent;
    var i :| 0 <= i < |w.queue| && w.queue[i].session == s && w.queue[i].key == KeyOf(logical, id, w.commands[id]);
    assert CopyOk(w, source, w.queue[i]);
    var r :| r in w.runs && w.queue[i].key == KeyOf(w.runs[r].key, w.queue[i].command, w.commands[w.queue[i].command]);
    KeyNamesCommand(w.commands, w.runs[r].key, logical, w.queue[i].command, id);
    assert IsCopy(w, source, w.queue[i], id);
  }

  /** No run cancels a non-empty open command that is not in the recorded successor's queue already. */
  lemma CancelledWasForwarded(source: SessionId, steps: seq<Step>, id: nat)
    requires id in RunSteps(source, START, steps).cancelled
    ensures var w := RunSteps(source, START, steps);
            id in w.commands && (w.commands[id].body != "" ==> Delivered(w, source, id))
  {
    StartIsOk(source);
    RunKeeps(source, START, steps);
    hide RunSteps;
    var w := RunSteps(source, START, steps);
    assert CancelledOk(w, source, id);
    hide CopyOk, KeysDistinct, Idempotent, Delivered;
    var r :| r in w.runs && w.runs[r].successor.Some? && Forwarded(w, w.runs[r].successor.value, w.runs[r].key, id);
    assert ProgressOk(w, source, w.runs[r]);
    if w.commands[id].body != "" {
      ForwardedIsDelivered(source, w, w.runs[r].successor.value, w.runs[r].key, id);
    }
  }

  /** The record's own key is what every run derives from: checked when the source was retired. */
  predicate KeyRecorded(w: World, source: SessionId) {
    source in w.recs && w.recs[source].logicalKey.Some? && w.recs[source].logicalKey.value != ""
  }

  /** A source first retired by a handoff has its key recorded, in every later state. */
  lemma HandoffRecordsAKey(source: SessionId, steps: seq<Step>, begin: Step, later: seq<Step>)
    requires begin.Begin? && begin.run !in RunSteps(source, START, steps).runs
    requires source !in RunSteps(source, START, steps).recs
    ensures KeyRecorded(RunSteps(source, TakeStep(source, RunSteps(source, START, steps), begin), later), source)
  {
    hide RunSteps, Inv;
    StartIsOk(source);
    RunKeeps(source, START, steps);
    var w := RunSteps(source, START, steps);
    var v := TakeStep(source, w, begin);
    BeginKeeps(source, w, begin);
    assert KeyRecorded(v, source) by {
      assert |Or(begin.logicalKey, "handoff:" + source)| > 0;
    }
    RunKeeps(source, v, later);
    KeyStays(v.recs, RunSteps(source, v, later).recs, source);
  }

  /** Two copies of one command can only be under different derived keys, and only when no key was recorded. */
  lemma CopiesOfOneCommand(source: SessionId, steps: seq<Step>, i: nat, j: nat)
    requires var q := RunSteps(source, START, steps).queue; i < j < |q| && q[i].command == q[j].command
    ensures var w := RunSteps(source, START, steps);
            && !KeyRecorded(w, source) && w.queue[i].key != w.queue[j].key
            && w.queue[i].key.Derived? && w.queue[j].key.Derived?
  {
    StartIsOk(source);
    RunKeeps(source, START, steps);
    hide RunSteps;
    var w := RunSteps(source, START, steps);
    assert CopyOk(w, source, w.queue[i]) && CopyOk(w, source, w.queue[j]);
    var c := w.queue[i].command;
    var r :| r in w.runs && w.queue[i].key == KeyOf(w.runs[r].key, c, w.commands[c]);
    var t :| t in w.runs && w.queue[j].key == KeyOf(w.runs[t].key, c, w.commands[c]);
    assert ProgressOk(w, source, w.runs[r]) && ProgressOk(w, source, w.runs[t]);
    hide Forwarded, CancelledOk, KeysDistinct;
  }

  /** With the key recorded when the source was retired, each command has at most one copy at the successor over all runs. */
  lemma OneCopyWhenTheKeyIsRecorded(source: SessionId, steps: seq<Step>, i: nat, j: nat)
    requires KeyRecorded(RunSteps(source, START, steps), source)
    requires i < j < |RunSteps(source, START, steps).queue|
    ensures RunSteps(source, START, steps).queue[i].command != RunSteps(source, START, steps).queue[j].command
  {
    if RunSteps(source, START, steps).queue[i].command == RunSteps(source, START, steps).queue[j].command {
      CopiesOfOneCommand(source, steps, i, j);
      assert false;
    }
  }

  /**
   And conversely: a command without a key of its own that two runs with different logical keys
   have both forwarded is in the successor's queue twice.
   */
  lemma DifferentKeysDuplicate(source: SessionId, w: World, s: SessionId, a: string, b: string, id: nat) returns (i: nat, j: nat)
    requires Inv(source, w) && a != b && Forwarded(w, s, a, id) && Forwarded(w, s, b, id)
    requires w.commands[id].body != "" && (w.commands[id].own.None? || w.commands[id].own.value == "")
    ensures i < |w.queue| && j < |w.queue| && i != j
    ensures w.queue[i].command == id == w.queue[j].command && w.queue[i].session == s == w.queue[j].session
  {
    i := CopyUnder(source, w, s, a, id);
    j := CopyUnder(source, w, s, b, id);
  }

  lemma CopyUnder(source: SessionId, w: World, s: SessionId, logical: string, id: nat) returns (i: nat)
    requires Inv(source, w) && Forwarded(w, s, logical, id) && w.commands[id].body != ""
    ensures i < |w.queue| && w.queue[i].session == s && w.queue[i].command == id
    ensures w.queue[i].key == KeyOf(logical, id, w.commands[id])
  {
    hide ProgressOk, CancelledOk, KeyOf, KeysDistinct, Idempotent;
    i :| 0 <= i < |w.queue| && w.queue[i].session == s && w.queue[i].key == KeyOf(logical, id, w.commands[id]);
    assert CopyOk(w, source, w.queue[i]);
    var r :| r in w.runs && w.queue[i].key == KeyOf(w.runs[r].key, w.queue[i].command, w.commands[w.queue[i].command]);
    KeyNamesCommand(w.commands, w.runs[r].key, logical, w.queue[i].command, id);
  }

  // ---- a source archived without a key ----

  lemma UnknownSessionsLinkFreely(recs: Records, source: SessionId, successor: SessionId)
    requires source != successor && source in recs && recs[source].successor.None? && successor !in recs
    ensures LinkAnswer(recs, source, successor) == Linked
  {
    forall n: nat ensures n > 0 ==> Walk(recs, successor, n) == None {
      if n > 0 {
        assert Walk(recs, successor, 1) == None;
        WalkStops(recs, successor, 1, n);
      }
    }
    forall t, n: nat | Reaches(recs, successor, t) && n > 0 ensures Walk(recs, t, n) != Some(t) {
      assert t == successor;
    }
  }

  /** One whole forwarding pass of a fresh run over the one open command of the source. */
  function Pass(run: nat, key: string, adopt: bool): seq<Step> {
    [Begin(run, Some(key), "replaced"), ListOpen(run, [7]), if adopt then Adopt(run) else Spawn(run, "next"), Check(run), Forward(run)]
  }

  lemma {:induction false} RunAdd(source: SessionId, w: World, a: seq<Step>, b: seq<Step>)
    ensures RunSteps(source, w, a + b) == RunSteps(source, RunSteps(source, w, a), b)
    decreases |b|
  {
    hide TakeStep;
    if b == [] {
      assert a + b == a;
    } else {
      assert (a + b)[..|a + b| - 1] == a + b[..|b| - 1];
      RunAdd(source, w, a, b[..|b| - 1]);
    }
  }

  /** The source, archived without a logical key, has one open command without a dedupe key. */
  function Archived(successor: Option<SessionId>): Records {
    map["old" := Ownership(Superseded, "archive", None, successor)]
  }

  const WORK: map<nat, Command> := map[7 := Command("carry on", None, true)]

  function InRun(w: World, successor: Option<SessionId>, run: nat, p: Progress): World {
    w.(recs := Archived(successor), runs := w.runs[run := p])
  }

  lemma PassLooks(w: World, run: nat, key: string, recorded: Option<SessionId>)
    requires w.recs == Archived(recorded) && w.commands == WORK && run !in w.runs && key != ""
    ensures var p := Progress(key, recorded, None, None, false, 0, 0);
            && TakeStep("old", w, Begin(run, Some(key), "replaced")) == InRun(w, recorded, run, p)
            && TakeStep("old", InRun(w, recorded, run, p), ListOpen(run, [7])) == InRun(w, recorded, run, p.(listed := Some([7])))
  {
    var p := Progress(key, recorded, None, None, false, 0, 0);
    assert IsOpenListing(WORK, [7]);
    assert w.runs[run := p][run := p.(listed := Some([7]))] == w.runs[run := p.(listed := Some([7]))];
  }

  lemma PassLinks(w: World, run: nat, p: Progress, adopt: bool)
    requires p.listed.Some? && p.successor.None? && p.recorded == if adopt then Some("next") else None
    ensures var recorded := if adopt then Some("next") else None;
            TakeStep("old", InRun(w, recorded, run, p), if adopt then Adopt(run) else Spawn(run, "next")) ==
            InRun(w, Some("next"), run, p.(successor := Some("next")))
  {
    var recorded := if adopt then Some("next") else None;
    UnknownSessionsLinkFreely(Archived(None), "old", "next");
    hide LinkAnswer;
    assert WithSuccessor(Archived(None), "old", "next") == Archived(Some("next"));
    assert InRun(w, recorded, run, p).runs[run := p.(successor := Some("next"))] == w.runs[run := p.(successor := Some("next"))];
  }

  lemma PassSends(w: World, run: nat, p: Progress)
    requires p.listed == Some([7]) && p.successor == Some("next") && !p.checked && p.forwarded == 0
    requires w.commands == WORK && !Queued(w.queue, "next", Derived(p.key, 7))
    ensures var checked := InRun(w, Some("next"), run, p.(checked := true));
            && TakeStep("old", InRun(w, Some("next"), run, p), Check(run)) == checked
            && TakeStep("old", checked, Forward(run)) ==
               InRun(w.(queue := w.queue + [Copy("next", Derived(p.key, 7), 7, "carry on")]), Some("next"), run,
                     p.(checked := true, forwarded := 1))
  {
    hide Queued, LinkAnswer;
    var q := p.(checked := true);
    assert w.runs[run := p][run := q] == w.runs[run := q];
    assert w.runs[run := q][run := q.(forwarded := 1)] == w.runs[run := q.(forwarded := 1)];
  }

  lemma PassForwards(w: World, run: nat, key: string, adopt: bool)
    requires w.recs == Archived(if adopt then Some("next") else None) && w.commands == WORK
    requires run !in w.runs && key != "" && !Queued(w.queue, "next", Derived(key, 7))
    ensures var v := RunSteps("old", w, Pass(run, key, adopt));
            && v.recs == Archived(Some("next")) && v.commands == WORK && v.runs.Keys == w.runs.Keys + {run}
            && v.queue == w.queue + [Copy("next", Derived(key, 7), 7, "carry on")]
  {
    hide TakeStep, Queued, RunSteps, InRun;
    var recorded := if adopt then Some("next") else None;
    var p := Progress(key, recorded, None, None, false, 0, 0);
    var q := p.(listed := Some([7]));
    var s := q.(successor := Some("next"));
    var sent := w.(queue := w.queue + [Copy("next", Derived(key, 7), 7, "carry on")]);
    PassLooks(w, run, key, recorded);
    PassLinks(w, run, q, adopt);
    PassSends(w, run, s);
    RunFive("old", w, Pass(run, key, adopt),
            [w, InRun(w, recorded, run, p), InRun(w, recorded, run, q), InRun(w, Some("next"), run, s),
             InRun(w, Some("next"), run, s.(checked := true)),
             InRun(sent, Some("next"), run, s.(checked := true, forwarded := 1))]);
    InRunReads(sent, Some("next"), run, s.(checked := true, forwarded := 1));
  }

  lemma RunFive(source: SessionId, w: World, steps: seq<Step>, worlds: seq<World>)
    requires |steps| == 5 && |worlds| == 6 && worlds[0] == w
    requires TakeStep(source, worlds[0], steps[0]) == worlds[1]
    requires TakeStep(source, worlds[1], steps[1]) == worlds[2]
    requires TakeStep(source, worlds[2], steps[2]) == worlds[3]
    requires TakeStep(source, worlds[3], steps[3]) == worlds[4]
    requires TakeStep(source, worlds[4], steps[4]) == worlds[5]
    ensures RunSteps(source, w, steps) == worlds[5]
  {
    hide TakeStep;
    assert RunSteps(source, w, steps[..0]) == w;
    hide RunSteps;
    RunStep(source, w, steps, 0, w, worlds[1]);
    RunStep(source, w, steps, 1, worlds[1], worlds[2]);
    RunStep(source, w, steps, 2, worlds[2], worlds[3]);
    RunStep(source, w, steps, 3, worlds[3], worlds[4]);
    RunStep(source, w, steps, 4, worlds[4], worlds[5]);
    assert steps[..5] == steps;
  }

  lemma InRunReads(w: World, successor: Option<SessionId>, run: nat, p: Progress)
    ensures var v := InRun(w, successor, run, p);
            && v.recs == Archived(successor) && v.commands == w.commands && v.queue == w.queue
            && v.runs.Keys == w.runs.Keys + {run}
  {
  }

  lemma RunStep(source: SessionId, w: World, steps: seq<Step>, n: nat, a: World, b: World)
    requires n < |steps| && RunSteps(source, w, steps[..n]) == a && TakeStep(source, a, steps[n]) == b
    ensures RunSteps(source, w, steps[..n + 1]) == b
  {
    hide TakeStep;
    assert steps[..n + 1][..n] == steps[..n];
  }

  /** Runs with different logical keys for a source archived without one give its successor two copies of one command. */
  lemma ArchivedSourceCanBeCopiedTwice() returns (steps: seq<Step>)
    ensures var w := RunSteps("old", START, steps);
            |w.queue| == 2 && w.queue[0].command == w.queue[1].command && w.queue[0].session == w.queue[1].session
  {
    var first := [Enqueue(7, "carry on", None), Elsewhere(Retire("old", Superseded, "archive", None))];
    var one, two := Pass(1, "task:t:epoch:1", false), Pass(2, "task:t:epoch:2", true);
    steps := first + one + two;
    ArchiveFirst(first);
    hide RunSteps, Pass, TakeStep;
    RunAdd("old", START, first + one, two);
    RunAdd("old", START, first, one);
    var w := World(Archived(None), WORK, [], map[], {});
    PassForwards(w, 1, "task:t:epoch:1", false);
    var mid := RunSteps("old", w, one);
    assert !Queued(mid.queue, "next", Derived("task:t:epoch:2", 7)) by {
      assert mid.queue == [Copy("next", Derived("task:t:epoch:1", 7), 7, "carry on")];
      assert "task:t:epoch:1"[13] != "task:t:epoch:2"[13];
    }
    hide Queued;
    PassForwards(mid, 2, "task:t:epoch:2", true);
  }

  lemma ArchiveFirst(first: seq<Step>)
    requires first == [Enqueue(7, "carry on", None), Elsewhere(Retire("old", Superseded, "archive", None))]
    ensures RunSteps("old", START, first) == World(Archived(None), WORK, [], map[], {})
  {
    assert RunSteps("old", START, first[..0]) == START;
    hide RunSteps;
    RunStep("old", START, first, 0, START, START.(commands := WORK));
    RunStep("old", START, first, 1, START.(commands := WORK), World(Archived(None), WORK, [], map[], {}));
    assert first[..2] == first;
  }

  // ---- one uninterrupted call ----

  lemma RunSnoc(source: SessionId, w: World, steps: seq<Step>, step: Step)
    ensures RunSteps(source, w, steps + [step]) == TakeStep(source, RunSteps(source, w, steps), step)
  {
    hide TakeStep;
    assert (steps + [step])[..|steps|] == steps;
  }

  /** The logical key a handoff derives from: the record's own, or else the caller's. */
  function HandoffKey(recs: Records, source: SessionId, logicalKey: Option<string>): string {
    var key := if logicalKey.Some? && logicalKey.value != "" then logicalKey.value else "handoff:" + source;
    if source in recs && recs[source].logicalKey.Some? && recs[source].logicalKey.value != "" then recs[source].logicalKey.value
    else key
  }

  /** The session a handoff may go to: not the source, and not one that was retired or superseded. */
  function Unquarantined(recs: Records, candidate: SessionId, source: SessionId): Option<SessionId> {
    if candidate == source || candidate in recs then None else Some(candidate)
  }

  /** A command's own dedupe key, or one derived from the handoff's. */
  function OwnOrDerived(own: Option<string>, logical: string, id: nat): DedupeKey {
    match own
    case Some(text) => if text != "" then Own(text) else Derived(logical, id)
    case None => Derived(logical, id)
  }

  /** The first `n` listed commands that have a body are in the session's queue under their keys. */
  predicate AllSent(commands: map<nat, Command>, queue: seq<Copy>, s: SessionId, key: string, open: seq<nat>, n: nat) {
    && n <= |open|
    && forall i :: 0 <= i < n ==>
         open[i] in commands
         && (commands[open[i]].body != "" ==> Queued(queue, s, OwnOrDerived(commands[open[i]].own, key, open[i])))
  }

  /** Commands keep their bodies and keys: only whether they are open changes. */
  predicate SameTexts(a: map<nat, Command>, b: map<nat, Command>) {
    && a.Keys == b.Keys
    && forall c :: c in a ==> b[c].body == a[c].body && b[c].own == a[c].own
  }

  lemma SameTextsReflexive(a: map<nat, Command>)
    ensures SameTexts(a, a)
  {
  }

  lemma ClosingKeepsTexts(a: map<nat, Command>, b: map<nat, Command>, id: nat)
    requires SameTexts(a, b) && id in b
    ensures SameTexts(a, b[id := b[id].(open := false)])
  {
  }

  lemma SentNone(commands: map<nat, Command>, queue: seq<Copy>, s: SessionId, key: string, open: seq<nat>)
    ensures AllSent(commands, queue, s, key, open, 0)
  {
  }

  /** Sending the next listed command, if it has a body. */
  lemma SentOne(commands: map<nat, Command>, queue: seq<Copy>, s: SessionId, key: string, open: seq<nat>, n: nat)
    requires AllSent(commands, queue, s, key, open, n) && n < |open| && open[n] in commands
    ensures var c := commands[open[n]];
            var after := if c.body == "" then queue else Sent(queue, Copy(s, KeyOf(key, open[n], c), open[n], c.body));
            AllSent(commands, after, s, key, open, n + 1) && queue <= after
  {
    var c := commands[open[n]];
    var copy := Copy(s, KeyOf(key, open[n], c), open[n], c.body);
    var after := if c.body == "" then queue else Sent(queue, copy);
    if !Queued(queue, copy.session, copy.key) {
      assert (queue + [copy])[|queue|] == copy;
    }
    forall i | 0 <= i < n && commands[open[i]].body != ""
      ensures Queued(after, s, OwnOrDerived(commands[open[i]].own, key, open[i]))
    {
      QueuedExtends(queue, after, s, OwnOrDerived(commands[open[i]].own, key, open[i]));
    }
  }

  /** The caller of a handoff, with the queues it works on. */
  class Client {
    const store: OwnershipStore
    var commands: map<nat, Command>
    var queue: seq<Copy>
    ghost var runs: map<nat, Progress>
    ghost var cancelled: set<nat>

    ghost function Contents(): World
      reads this, store
    {
      World(store.recs, commands, queue, runs, cancelled)
    }

    constructor (store: OwnershipStore)
      ensures this.store == store && Contents() == World(store.recs, map[], [], map[], {})
    {
      this.store := store;
      commands, queue, runs, cancelled := map[], [], map[], {};
    }

    /** `send` to the successor: idempotent by dedupe key. */
    method Send(copy: Copy)
      modifies this`queue
      ensures queue == Sent(old(queue), copy)
    {
      if !Queued(queue, copy.session, copy.key) {
        queue := queue + [copy];
      }
    }

    method ForwardAll(source: SessionId, ghost run: nat, key: string, successor: SessionId, open: seq<nat>)
      returns (ghost steps: seq<Step>)
      requires run in runs && runs[run].(recorded := None) == Progress(key, None, Some(open), Some(successor), true, 0, 0)
      requires forall i :: 0 <= i < |open| ==> open[i] in commands
      modifies this`queue, this`runs
      ensures Contents() == RunSteps(source, old(Contents()), steps)
      ensures runs == old(runs)[run := old(runs)[run].(forwarded := |open|)]
      ensures AllSent(commands, queue, successor, key, open, |open|) && old(queue) <= queue
    {
      hide Sent;
      steps := [];
      ghost var before := Contents();
      ghost var p := runs[run];
      assert runs == runs[run := p.(forwarded := 0)];
      RunNothing(source, before);
      hide RunSteps, TakeStep, KeyOf, AllSent;
      SentNone(commands, queue, successor, key, open);
      var i := 0;
      while i < |open|
        invariant 0 <= i <= |open|
        invariant runs == before.runs[run := p.(forwarded := i)]
        invariant AllSent(commands, queue, successor, key, open, i) && before.queue <= queue
        invariant Contents() == RunSteps(source, before, steps) && commands == before.commands && store.recs == before.recs
      {
        var id := open[i];
        ghost var was := Contents();
        SentOne(commands, queue, successor, key, open, i);
        if commands[id].body != "" {
          Send(Copy(successor, KeyOf(key, id, commands[id]), id, commands[id].body));
        }
        UpdateTwice(before.runs, run, p.(forwarded := i), p.(forwarded := i + 1));
        runs := before.runs[run := p.(forwarded := i + 1)];
        RunSnoc(source, before, steps, Forward(run));
        ForwardStep(source, was, run);
        assert was.runs[run] == p.(forwarded := i);
        assert Contents() == RunSteps(source, before, steps + [Forward(run)]);
        steps := steps + [Forward(run)];
        i := i + 1;
      }
    }

    method CancelAll(source: SessionId, ghost run: nat, open: seq<nat>, possible: bool) returns (ghost steps: seq<Step>)
      requires run in runs && runs[run].checked && runs[run].successor.Some? && runs[run].listed == Some(open)
      requires runs[run].forwarded == |open| && runs[run].cancelled == 0
      requires forall i :: 0 <= i < |open| ==> open[i] in commands
      modifies this`commands, this`runs, this`cancelled
      ensures Contents() == RunSteps(source, old(Contents()), steps)
      ensures SameTexts(old(commands), commands) && queue == old(queue)
      ensures if possible then Shut(commands, open, |open|) else commands == old(commands)
    {
      steps := [];
      ghost var before := Contents();
      ghost var p := runs[run];
      assert runs == runs[run := p.(cancelled := 0)];
      RunNothing(source, before);
      hide RunSteps, TakeStep, Shut, SameTexts;
      ShutNone(commands, open);
      SameTextsReflexive(commands);
      var i := 0;
      while i < |open|
        invariant 0 <= i <= |open|
        invariant runs == before.runs[run := p.(cancelled := i)]
        invariant commands.Keys == before.commands.Keys && SameTexts(before.commands, commands)
        invariant if possible then Shut(commands, open, i) else commands == before.commands
        invariant Contents() == RunSteps(source, before, steps) && queue == before.queue && store.recs == before.recs
      {
        var id := open[i];
        ghost var was := Contents();
        assert p.(cancelled := i).listed.value[i] == id;
        if possible {
          ShutOne(commands, open, i);
          ClosingKeepsTexts(before.commands, commands, id);
          commands := commands[id := commands[id].(open := false)];
          cancelled := cancelled + {id};
        }
        UpdateTwice(before.runs, run, p.(cancelled := i), p.(cancelled := i + 1));
        runs := before.runs[run := p.(cancelled := i + 1)];
        RunSnoc(source, before, steps, Cancel(run, possible));
        CancelStep(source, was, run, possible);
        assert was.runs[run] == p.(cancelled := i);
        assert Contents() == RunSteps(source, before, steps + [Cancel(run, possible)]);
        steps := steps + [Cancel(run, possible)];
        i := i + 1;
      }
    }

    /** Retire and list; `open` is what the source's queue answered. */
    method Prepare(source: SessionId, ghost run: nat, logicalKey: Option<string>, reason: string, open: seq<nat>)
      returns (key: string, recorded: Option<SessionId>, ghost steps: seq<Step>)
      requires run !in runs && IsOpenListing(commands, open)
      modifies this`runs, store
      ensures Contents() == RunSteps(source, old(Contents()), steps)
      ensures run in runs && runs[run] == Progress(key, recorded, Some(open), None, false, 0, 0)
      ensures source in store.recs && store.recs[source].successor == recorded
      ensures commands == old(commands) && key == HandoffKey(old(store.recs), source, logicalKey)
      ensures store.recs.Keys == old(store.recs).Keys + {source} && recorded == Next(old(store.recs), source)
    {
      hide IsOpenListing;
      ghost var before := Contents();
      key := Or(logicalKey, "handoff:" + source);
      var record := store.Retire(source, Superseded, reason, Some(key));
      key := Or(record.logicalKey, key);
      recorded := record.successor;
      ghost var p := Progress(key, recorded, None, None, false, 0, 0);
      runs := before.runs[run := p];
      ghost var begun := Contents();
      assert begun == TakeStep(source, before, Begin(run, logicalKey, reason));
      runs := runs[run := p.(listed := Some(open))];
      assert Contents() == TakeStep(source, begun, ListOpen(run, open));
      RunTwo(source, before, Begin(run, logicalKey, reason), ListOpen(run, open));
      steps := [Begin(run, logicalKey, reason), ListOpen(run, open)];
    }

    /** Adopt the recorded successor, or link the spawned one; then refuse one that is quarantined. */
    method ChooseSuccessor(source: SessionId, ghost run: nat, key: string, recorded: Option<SessionId>, open: seq<nat>, spawned: SessionId)
      returns (successor: Option<SessionId>, ghost steps: seq<Step>)
      requires run in runs && runs[run] == Progress(key, recorded, Some(open), None, false, 0, 0)
      requires source in store.recs && store.recs[source].successor == recorded
      modifies this`runs, store
      ensures Contents() == RunSteps(source, old(Contents()), steps)
      ensures commands == old(commands)
      ensures successor.Some? ==>
                && run in runs && runs[run] == Progress(key, recorded, Some(open), successor, true, 0, 0)
                && source in store.recs && store.recs[source].successor == successor && successor.value !in store.recs
      ensures successor == Unquarantined(old(store.recs), if recorded.Some? then recorded.value else spawned, source)
    {
      hide Reaches, Looping;
      ghost var before := Contents();
      ghost var choice := if recorded.Some? then Adopt(run) else Spawn(run, spawned);
      var chosen := spawned;
      if recorded.Some? {
        chosen := recorded.value;
      } else {
        if spawned !in store.recs {
          UnknownSessionsLinkFreely(store.recs, source, spawned);
        }
        var answer := store.LinkSuccessor(source, spawned);
        if answer != Linked && answer != AlreadyLinked {
          RunTwo(source, before, choice, choice);
          steps := [choice, choice];
          return None, steps;
        }
      }
      runs := runs[run := runs[run].(successor := Some(chosen))];
      ghost var linked := Contents();
      assert linked == TakeStep(source, before, choice);
      RunTwo(source, before, choice, Check(run));
      steps := [choice, Check(run)];
      if chosen in store.recs {
        return None, steps;
      }
      runs := runs[run := runs[run].(checked := true)];
      successor := Some(chosen);
      assert Contents() == TakeStep(source, linked, Check(run));
    }

    /**
     `transfer_ownership` without interruption: a run of the machine above, so that all its promises
     hold. It goes to the recorded successor, or to the session spawned if none is recorded, and is
     refused exactly if that is the source or is quarantined. Otherwise every listed command with a
     body is in that successor's queue under its key, and is cancelled if it can be.
     */
    method TransferOwnership(source: SessionId, ghost run: nat, logicalKey: Option<string>, reason: string,
                             open: seq<nat>, spawned: SessionId, possible: bool)
      returns (successor: Option<SessionId>, ghost steps: seq<Step>)
      requires run !in runs && IsOpenListing(commands, open)
      modifies this, store
      ensures Contents() == RunSteps(source, old(Contents()), steps)
      ensures successor.Some? ==>
                && source in store.recs && store.recs[source].successor == successor
                && (if possible then Shut(commands, open, |open|) else commands == old(commands))
      ensures successor == Unquarantined(old(store.recs), Else(Next(old(store.recs), source), spawned), source)
      ensures successor.Some? ==>
                AllSent(old(commands), queue, successor.value, HandoffKey(old(store.recs), source, logicalKey), open, |open|)
      ensures SameTexts(old(commands), commands) && old(queue) <= queue
      ensures successor.None? ==> commands == old(commands) && queue == old(queue)
    {
      hide IsOpenListing, RunSteps, AllSent, SameTexts;
      SameTextsReflexive(commands);
      ghost var before := Contents();
      assert forall i :: 0 <= i < |open| ==> open[i] in commands by {
        ListedIsKnown(commands, open);
      }
      var key, recorded, prepared := Prepare(source, run, logicalKey, reason, open);
      ghost var chosen;
      successor, chosen := ChooseSuccessor(source, run, key, recorded, open, spawned);
      RunAdd(source, before, prepared, chosen);
      steps := prepared + chosen;
      if successor.None? {
        return;
      }
      ghost var sent := ForwardAll(source, run, key, successor.value, open);
      RunAdd(source, before, steps, sent);
      steps := steps + sent;
      ghost var ended := CancelAll(source, run, open, possible);
      RunAdd(source, before, steps, ended);
      steps := steps + ended;
    }
  }

  lemma RunNothing(source: SessionId, w: World)
    ensures RunSteps(source, w, []) == w
  {
  }

  /** The first `n` listed commands are no longer open. */
  predicate Shut(commands: map<nat, Command>, open: seq<nat>, n: nat) {
    n <= |open| && forall i :: 0 <= i < n ==> open[i] in commands && !commands[open[i]].open
  }

  lemma ShutNone(commands: map<nat, Command>, open: seq<nat>)
    ensures Shut(commands, open, 0)
  {
  }

  lemma ShutOne(commands: map<nat, Command>, open: seq<nat>, n: nat)
    requires Shut(commands, open, n) && n < |open| && open[n] in commands
    ensures Shut(commands[open[n] := commands[open[n]].(open := false)], open, n + 1)
  {
  }

  lemma UpdateTwice(m: map<nat, Progress>, k: nat, a: Progress, b: Progress)
    ensures m[k := a][k := b] == m[k := b]
  {
  }

  lemma ForwardStep(source: SessionId, w: World, run: nat)
    requires run in w.runs && MayForward(w, w.runs[run])
    ensures var p := w.runs[run];
            var id := p.listed.value[p.forwarded];
            TakeStep(source, w, Forward(run)) ==
            w.(runs := w.runs[run := p.(forwarded := p.forwarded + 1)],
               queue := if w.commands[id].body == "" then w.queue
                        else Sent(w.queue, Copy(p.successor.value, KeyOf(p.key, id, w.commands[id]), id, w.commands[id].body)))
  {
    hide Sent, KeyOf;
  }

  lemma CancelStep(source: SessionId, w: World, run: nat, possible: bool)
    requires run in w.runs && MayCancel(w, w.runs[run])
    ensures var p := w.runs[run];
            var id := p.listed.value[p.cancelled];
            TakeStep(source, w, Cancel(run, possible)) ==
            w.(runs := w.runs[run := p.(cancelled := p.cancelled + 1)],
               commands := if possible then w.commands[id := w.commands[id].(open := false)] else w.commands,
               cancelled := if possible then w.cancelled + {id} else w.cancelled)
  {
  }

  lemma ListedIsKnown(commands: map<nat, Command>, open: seq<nat>)
    requires IsOpenListing(commands, open)
    ensures forall i :: 0 <= i < |open| ==> open[i] in commands
  {
  }

  lemma RunTwo(source: SessionId, w: World, a: Step, b: Step)
    ensures RunSteps(source, w, [a, b]) == TakeStep(source, TakeStep(source, w, a), b)
  {
    hide TakeStep;
    assert RunSteps(source, w, []) == w;
    assert [a, b][..1] == [a] && [a][..0] == [];
    assert RunSteps(source, w, [a]) == TakeStep(source, w, a);
  }
}
