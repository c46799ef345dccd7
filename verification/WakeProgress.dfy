/**
 That the outbox gets on (`wakes.py`): due rows are claimed, a wake whose holder crashed is
 delivered by the next one, unheard events can be told in any reachable state, and a silent, lost
 or over-budget child is reported.
 */
module WakeProgress {
  import opened Options
  import opened Wakes
  import opened WakeRuns
  import T = TaskStore
  import S = StallEpisodes

  // ---- claims ----

  predicate Due(w: Wake, now: real) {
    match w.state
    case Pending => true
    case Claimed => w.expires.Some? && w.expires.value < now
    case Delivered => false
    case Resolved => false
  }

  /** The row as its next holder has it. */
  function Taken(w: Wake, token: nat, expires: real): Wake {
    Wake(w.parent, w.waitsFor, w.key, w.eventSeq, w.createdAt, Claimed, Some(expires), Some(token), w.payload, w.resolution)
  }

  /** A row is taken exactly when it is pending or its claim has run out; then it is its new holder's for the whole lease. */
  lemma ClaimTakesExactlyDueRows(db: DB, id: nat, now: real, seconds: real)
    requires id < |db.wakes|
    ensures ClaimOne(db, id, now, seconds) ==
            if Due(db.wakes[id], now) then
              DB(db.tasks, db.wakes[id := Taken(db.wakes[id], db.nextToken, now + seconds)], db.nextToken + 1)
            else db
    ensures ClaimOne(db, id, now, seconds) != db <==> Due(db.wakes[id], now)
  {
  }

  /** `claim()` takes every due row, each under a token of its own, and no other. */
  lemma {:induction false} BatchTakesEveryDueRow(db: DB, n: nat, now: real, seconds: real)
    requires n <= |db.wakes|
    ensures var d := ClaimFirst(db, n, now, seconds);
            && d.tasks == db.tasks && |d.wakes| == |db.wakes| && db.nextToken <= d.nextToken
            && (forall i: nat :: i < |db.wakes| && !(i < n && Due(db.wakes[i], now)) ==> d.wakes[i] == db.wakes[i])
            && (forall i: nat :: i < n && Due(db.wakes[i], now) ==>
                  && d.wakes[i].token.Some? && db.nextToken <= d.wakes[i].token.value < d.nextToken
                  && d.wakes[i] == Taken(db.wakes[i], d.wakes[i].token.value, now + seconds))
            && (forall i: nat, j: nat :: i < j < n && Due(db.wakes[i], now) && Due(db.wakes[j], now) ==>
                  d.wakes[i].token != d.wakes[j].token)
  {
    hide ClaimOne, Due, Taken;
    if n > 0 {
      BatchTakesEveryDueRow(db, n - 1, now, seconds);
      var d := ClaimFirst(db, n - 1, now, seconds);
      assert d.wakes[n - 1] == db.wakes[n - 1];
      ClaimTakesExactlyDueRows(d, n - 1, now, seconds);
      TakenIsTagged(db.wakes[n - 1], d.nextToken, now + seconds);
    }
  }

  lemma TakenIsTagged(w: Wake, token: nat, expires: real)
    ensures Taken(w, token, expires).token == Some(token)
  {
  }

  /** In every run a claimed row carries its lease, so it is due again once the clock has passed it. */
  lemma EveryClaimRunsOut(ops: seq<Op>, id: nat)
    requires id < |Run(START, ops).db.wakes| && Live(Run(START, ops).db.wakes[id])
    ensures var w := Run(START, ops).db.wakes[id];
            && (w.state == Claimed ==> w.expires.Some?)
            && forall now: real :: (w.state == Claimed ==> w.expires.value < now) ==> Due(w, now)
  {
    StartIsOk();
    RunKeepsWorld(START, ops);
    hide Run;
    var db := Run(START, ops).db;
    assert WakeOk(db.tasks, db.nextToken, db.wakes[id]);
  }

  // ---- one delivery ----

  ghost function Continue(w: World, ops: seq<Op>): World
    decreases |ops|
  {
    if ops == [] then w else Continue(Apply(w, ops[0]), ops[1..])
  }

  lemma {:induction false} RunContinues(w: World, ops: seq<Op>, more: seq<Op>)
    ensures Run(w, ops + more) == Continue(Run(w, ops), more)
    decreases |more|
  {
    hide Apply;
    if more == [] {
      assert ops + more == ops;
    } else {
      assert (ops + [more[0]])[..|ops|] == ops;
      assert ops + more == (ops + [more[0]]) + more[1..];
      RunContinues(w, ops + [more[0]], more[1..]);
    }
  }

  lemma {:induction false} ContinueKeepsWorld(w: World, ops: seq<Op>)
    requires WorldInv(w)
    ensures WorldInv(Continue(w, ops)) && Grows(w.db, Continue(w, ops).db)
    decreases |ops|
  {
    hide WorldInv, Grows, Apply;
    if ops == [] {
      GrowsReflexive(w.db);
    } else {
      StepKeepsWorld(w, ops[0]);
      ContinueKeepsWorld(Apply(w, ops[0]), ops[1..]);
      GrowsTransitive(w.db, Apply(w, ops[0]).db, Continue(w, ops).db);
    }
  }

  function HolderOf(w: World, id: nat): Held
    requires id < |w.db.wakes|
  {
    Held(id, w.db.nextToken, w.db.wakes[id].parent, w.db.wakes[id].eventSeq)
  }

  /** The bytes a delivery sends: those selected before, or a message rendered now. */
  function BytesOf(w: World, id: nat, text: string): Payload
    requires id < |w.db.wakes|
  {
    Else(w.db.wakes[id].payload, Message(Seen(w.db.tasks, w.db.wakes[id].parent), text))
  }

  /** What one pump does with one wake when nothing goes wrong. */
  function DeliveryOps(w: World, id: nat, now: real, seconds: real, text: string): seq<Op>
    requires id < |w.db.wakes|
  {
    var h, bytes := HolderOf(w, id), BytesOf(w, id, text);
    [Claim(id, now, seconds), Render(h, text), PersistBytes(h, Message(Seen(w.db.tasks, h.parent), text)), Send(h, bytes),
     Deliver(h, bytes)]
  }

  /** What the delivery leaves of the tables: the row told, and its parent's watermark at least at the row's event. */
  ghost predicate DeliveredNow(a: DB, b: DB, id: nat, bytes: Payload) {
    && id < |a.wakes| == |b.wakes|
    && b.wakes[id].state == Delivered && b.wakes[id].payload == Some(bytes)
    && b.wakes[id].key == a.wakes[id].key && b.wakes[id].eventSeq == a.wakes[id].eventSeq
    && (forall i: nat :: i < |a.wakes| && i != id ==> b.wakes[i] == a.wakes[i])
    && b.tasks == (if a.wakes[id].eventSeq.Some? then Heard(a.tasks, a.wakes[id].parent, a.wakes[id].eventSeq.value) else a.tasks)
  }

  function Heard(tasks: map<TaskId, T.Task>, parent: TaskId, event: nat): map<TaskId, T.Task> {
    if parent in tasks then
      tasks[parent := tasks[parent].(lastWokenSeq := if tasks[parent].lastWokenSeq < event then event
                                                     else tasks[parent].lastWokenSeq)]
    else tasks
  }

  lemma SettleHears(db: DB, h: Held)
    requires Holds(db.wakes, h)
    ensures Settle(db, h, true, None, None).tasks ==
            if h.eventSeq.Some? then Heard(db.tasks, h.parent, h.eventSeq.value) else db.tasks
  {
    if h.eventSeq.Some? && h.parent in db.tasks {
      assert db.tasks[h.parent := db.tasks[h.parent]] == db.tasks;
    }
  }

  lemma ClaimedAndRendered(w: World, id: nat, now: real, seconds: real, text: string)
    requires id < |w.db.wakes| && Due(w.db.wakes[id], now)
    ensures var h := HolderOf(w, id);
            var message := Message(Seen(w.db.tasks, h.parent), text);
            var taken := DB(w.db.tasks, w.db.wakes[id := Taken(w.db.wakes[id], h.token, now + seconds)], h.token + 1);
            Apply(Apply(w, Claim(id, now, seconds)), Render(h, text)) ==
            World(taken, w.held + {h}, w.rendered + {Sending(h, message)}, w.ready, w.sent)
  {
    ClaimTakesExactlyDueRows(w.db, id, now, seconds);
  }

  lemma PersistedAndSent(w: World, h: Held, message: Payload)
    requires Sending(h, message) in w.rendered && Holds(w.db.wakes, h)
    ensures var bytes := Else(w.db.wakes[h.id].payload, message);
            var filled := w.db.(wakes := w.db.wakes[h.id := w.db.wakes[h.id].(payload := Some(bytes))]);
            Apply(Apply(w, PersistBytes(h, message)), Send(h, bytes)) ==
            World(filled, w.held, w.rendered, w.ready + {Sending(h, bytes)}, w.sent + {Sending(h, bytes)})
  {
  }

  lemma DeliveredFromClaim(w: World, h: Held, bytes: Payload)
    requires Sending(h, bytes) in w.sent && Holds(w.db.wakes, h) && w.db.wakes[h.id].payload == Some(bytes)
    requires w.db.wakes[h.id].parent == h.parent && w.db.wakes[h.id].eventSeq == h.eventSeq
    ensures DeliveredNow(w.db, Apply(w, Deliver(h, bytes)).db, h.id, bytes)
    ensures Apply(w, Deliver(h, bytes)).sent == w.sent
  {
    SettleHears(w.db, h);
    hide Heard;
  }

  /**
   In every state a due wake, pending or left by a holder that is gone, can be taken by one new
   holder through claim, render, persist, send and settlement, and ends delivered with the bytes sent.
   */
  lemma DueWakesCanBeDelivered(w: World, id: nat, now: real, seconds: real, text: string)
    requires id < |w.db.wakes| && Due(w.db.wakes[id], now)
    ensures var u := Continue(w, DeliveryOps(w, id, now, seconds, text));
            var bytes := BytesOf(w, id, text);
            DeliveredNow(w.db, u.db, id, bytes) && Sending(HolderOf(w, id), bytes) in u.sent
  {
    var h, bytes := HolderOf(w, id), BytesOf(w, id, text);
    var message := Message(Seen(w.db.tasks, h.parent), text);
    ClaimedAndRendered(w, id, now, seconds, text);
    var b := Apply(Apply(w, Claim(id, now, seconds)), Render(h, text));
    PersistedAndSent(b, h, message);
    var d := Apply(Apply(b, PersistBytes(h, message)), Send(h, bytes));
    DeliveredFromClaim(d, h, bytes);
    ContinueFive(w, DeliveryOps(w, id, now, seconds, text));
    hide Apply, Heard;
  }

  /**
   A suppression by the current holder parks the row with its reason, keeps bytes selected before,
   and moves no watermark, so the event it carried stays unheard; by anybody else it does nothing.
   */
  lemma SuppressionTellsNobody(db: DB, h: Held, reason: string)
    ensures ApplyDB(db, Suppress(h, reason)) ==
            if h.id < |db.wakes| && db.wakes[h.id].state == Claimed && db.wakes[h.id].token == Some(h.token) then
              var w := db.wakes[h.id];
              db.(wakes := db.wakes[h.id := Wake(w.parent, w.waitsFor, w.key, w.eventSeq, w.createdAt, Resolved, None, w.token,
                                                 Some(Else(w.payload, Suppressed(reason))), Some(reason))])
            else db
  {
  }

  lemma ContinueFive(w: World, ops: seq<Op>)
    requires |ops| == 5
    ensures Continue(w, ops) == Apply(Apply(Apply(Apply(Apply(w, ops[0]), ops[1]), ops[2]), ops[3]), ops[4])
  {
    hide Apply;
    var a := Apply(w, ops[0]);
    var b := Apply(a, ops[1]);
    var c := Apply(b, ops[2]);
    var d := Apply(c, ops[3]);
    assert Continue(w, ops) == Continue(a, ops[1..]);
    assert Continue(a, ops[1..]) == Continue(b, ops[2..]) by { assert ops[1..][1..] == ops[2..]; }
    assert Continue(b, ops[2..]) == Continue(c, ops[3..]) by { assert ops[2..][1..] == ops[3..]; }
    assert Continue(c, ops[3..]) == Continue(d, ops[4..]) by { assert ops[3..][1..] == ops[4..]; }
    assert Continue(d, ops[4..]) == Apply(d, ops[4]) by { assert ops[4..][1..] == []; }
  }

  // ---- unheard events can be told ----

  lemma LiveIndex(wakes: seq<Wake>, key: Key) returns (id: nat)
    requires LiveKey(wakes, key)
    ensures id < |wakes| && wakes[id].key == key && Live(wakes[id])
  {
    id :| id < |wakes| && wakes[id].key == key && Live(wakes[id]);
  }

  /** A moment at which a live wake is due: any after its lease. */
  lemma DueLater(w: Wake, now: real)
    requires Live(w) && (w.state == Claimed ==> w.expires.Some? && w.expires.value < now)
    ensures Due(w, now)
  {
  }

  /** Every claim in the outbox has run out: nobody has held one since before `now`. */
  ghost predicate AllLapsed(wakes: seq<Wake>, now: real) {
    forall i: nat :: i < |wakes| && wakes[i].state == Claimed ==> wakes[i].expires.Some? && wakes[i].expires.value < now
  }

  lemma LapsedIsDue(wakes: seq<Wake>, now: real, id: nat)
    requires AllLapsed(wakes, now) && id < |wakes| && Live(wakes[id])
    ensures Due(wakes[id], now)
  {
  }

  /** New rows of a rescan are pending and carry the parent's latest event. */
  lemma {:induction false} InsertedAreNew(wakes: seq<Wake>, parent: TaskId, ps: seq<Predicate>, event: nat, now: real)
    ensures var after := InsertAll(wakes, parent, ps, event, now);
            && wakes <= after
            && forall i: nat :: |wakes| <= i < |after| ==> after[i].state == Pending && after[i].eventSeq == Some(event)
    decreases |ps|
  {
    hide LiveKey;
    if ps != [] {
      InsertedAreNew(wakes, parent, ps[..|ps| - 1], event, now);
    }
  }

  lemma RescanAddsLatest(db: DB, parent: TaskId, now: real)
    ensures var d := RecordCohort(db, parent, now);
            && d.tasks == db.tasks && db.wakes <= d.wakes
            && (AllLapsed(db.wakes, now) ==> AllLapsed(d.wakes, now))
            && forall i: nat :: |db.wakes| <= i < |d.wakes| ==>
                 d.wakes[i].state == Pending && parent in db.tasks && d.wakes[i].eventSeq == Some(db.tasks[parent].childEventSeq)
  {
    hide SatisfiedPredicates, InsertAll;
    if Behind(db, parent) {
      InsertedAreNew(db.wakes, parent, SatisfiedPredicates(db.tasks, parent), db.tasks[parent].childEventSeq, now);
    }
  }

  /** One round of the reconciler for a satisfied predicate: rescan, and deliver the live wake it leaves. */
  ghost predicate RoundDone(w: World, u: World, parent: TaskId, p: Predicate, now: real, id: nat) {
    && WorldInv(u) && parent in w.db.tasks && parent in u.db.tasks
    && (forall c :: c in u.db.tasks <==> c in w.db.tasks)
    && (forall c :: c in w.db.tasks ==> u.db.tasks[c].state == w.db.tasks[c].state && u.db.tasks[c].parent == w.db.tasks[c].parent
                                        && u.db.tasks[c].childEventSeq == w.db.tasks[c].childEventSeq)
    && AllLapsed(u.db.wakes, now)
    && id < |u.db.wakes| && u.db.wakes[id].key == CohortKey(parent, p) && u.db.wakes[id].state == Delivered
    && u.db.wakes[id].eventSeq.Some? && u.db.wakes[id].eventSeq.value <= u.db.tasks[parent].lastWokenSeq
    && (id < |w.db.wakes| ==> Live(w.db.wakes[id]) && w.db.wakes[id].key == CohortKey(parent, p))
    && (forall i: nat :: i < |u.db.wakes| && i != id && u.db.wakes[i].key == CohortKey(parent, p) ==> !Live(u.db.wakes[i]))
    && (id >= |w.db.wakes| ==> u.db.wakes[id].eventSeq.value == w.db.tasks[parent].childEventSeq)
  }

  lemma DeliveredTasks(a: DB, b: DB, id: nat, bytes: Payload)
    requires DeliveredNow(a, b, id, bytes) && a.wakes[id].eventSeq.Some? && a.wakes[id].parent in a.tasks
    ensures b.tasks.Keys == a.tasks.Keys
    ensures forall c :: c in a.tasks ==> b.tasks[c].state == a.tasks[c].state && b.tasks[c].parent == a.tasks[c].parent
                                         && b.tasks[c].childEventSeq == a.tasks[c].childEventSeq
    ensures a.wakes[id].eventSeq.value <= b.tasks[a.wakes[id].parent].lastWokenSeq
  {
  }

  lemma OneRound(w: World, parent: TaskId, p: Predicate, now: real, seconds: real, text: string) returns (ops: seq<Op>, id: nat)
    requires WorldInv(w) && AllLapsed(w.db.wakes, now)
    requires Behind(w.db, parent) && Satisfied(w.db.tasks, parent, p)
    ensures RoundDone(w, Continue(w, ops), parent, p, now, id)
  {
    hide Satisfied, LiveKey, Apply, DeliveryOps, BytesOf, Continue, RecordCohort;
    var armed := Apply(w, Rescan(parent, now));
    assert armed.db == RecordCohort(w.db, parent, now) by { RescanStep(w, parent, now); }
    RescanArmsExactlyWhenBehind(w.db, parent, now);
    RescanAddsLatest(w.db, parent, now);
    StepKeepsWorld(w, Rescan(parent, now));
    id := LiveIndex(armed.db.wakes, CohortKey(parent, p));
    LapsedIsDue(armed.db.wakes, now, id);
    var more := DeliveryOps(armed, id, now, seconds, text);
    DueWakesCanBeDelivered(armed, id, now, seconds, text);
    ContinueKeepsWorld(armed, more);
    ops := [Rescan(parent, now)] + more;
    var u := Continue(armed, more);
    ContinueStep(w, Rescan(parent, now), more);
    RoundFacts(w, armed, u, parent, p, now, id, BytesOf(armed, id, text));
  }

  lemma RescanStep(w: World, parent: TaskId, now: real)
    ensures Apply(w, Rescan(parent, now)).db == RecordCohort(w.db, parent, now)
  {
    hide RecordCohort;
  }

  lemma ContinueStep(w: World, op: Op, more: seq<Op>)
    ensures Continue(w, [op] + more) == Continue(Apply(w, op), more)
  {
    hide Apply;
    assert ([op] + more)[1..] == more;
  }

  lemma CohortRow(db: DB, id: nat, parent: TaskId, p: Predicate)
    requires Inv(db) && id < |db.wakes| && db.wakes[id].key == CohortKey(parent, p)
    ensures db.wakes[id].parent == parent && db.wakes[id].eventSeq.Some? && parent in db.tasks
    ensures db.wakes[id].eventSeq.value <= db.tasks[parent].childEventSeq
  {
    assert WakeOk(db.tasks, db.nextToken, db.wakes[id]);
  }

  lemma OnlyLive(wakes: seq<Wake>, id: nat)
    requires LiveUnique(wakes) && id < |wakes| && Live(wakes[id])
    ensures forall i: nat :: i < |wakes| && i != id && wakes[i].key == wakes[id].key ==> !Live(wakes[i])
  {
  }

  lemma RoundFacts(w: World, armed: World, u: World, parent: TaskId, p: Predicate, now: real, id: nat, bytes: Payload)
    requires WorldInv(armed) && WorldInv(u) && armed.db.tasks == w.db.tasks && w.db.wakes <= armed.db.wakes
    requires AllLapsed(armed.db.wakes, now) && parent in w.db.tasks
    requires id < |armed.db.wakes| && armed.db.wakes[id].key == CohortKey(parent, p) && Live(armed.db.wakes[id])
    requires id >= |w.db.wakes| ==> armed.db.wakes[id].eventSeq == Some(w.db.tasks[parent].childEventSeq)
    requires DeliveredNow(armed.db, u.db, id, bytes)
    ensures RoundDone(w, u, parent, p, now, id)
  {
    CohortRow(armed.db, id, parent, p);
    DeliveredTasks(armed.db, u.db, id, bytes);
    OnlyLive(armed.db.wakes, id);
    hide WorldInv, Heard;
    assert id < |w.db.wakes| ==> w.db.wakes[id] == armed.db.wakes[id];
  }

  lemma SatisfiedSame(a: map<TaskId, T.Task>, b: map<TaskId, T.Task>, parent: TaskId, p: Predicate)
    requires forall c :: c in b <==> c in a
    requires forall c :: c in a ==> b[c].state == a[c].state && b[c].parent == a[c].parent
    requires Satisfied(a, parent, p)
    ensures Satisfied(b, parent, p)
  {
    match p
    case AnyChildBlocked =>
      var c :| c in a && IsChild(a, c, parent) && a[c].state == T.Blocked;
      assert IsChild(b, c, parent);
    case AllChildrenTerminal =>
      var c :| c in a && IsChild(a, c, parent);
      assert IsChild(b, c, parent);
      forall x | x in b && IsChild(b, x, parent) ensures b[x].state !in T.LIVE_STATES {
        assert IsChild(a, x, parent);
      }
    case _ =>
  }

  /**
   Unheard events can always be told: in every run whose claims have lapsed, a parent with unheard
   events and a satisfied predicate has all its events delivered after at most two rounds of rescan
   and delivery, the second for a wake that was armed before the last event.
   */
  lemma UnheardEventsCanBeTold(ops: seq<Op>, parent: TaskId, p: Predicate, now: real, seconds: real, text: string)
    returns (more: seq<Op>)
    requires AllLapsed(Run(START, ops).db.wakes, now)
    requires Behind(Run(START, ops).db, parent) && Satisfied(Run(START, ops).db.tasks, parent, p)
    ensures var db := Run(START, ops + more).db;
            && parent in db.tasks && db.tasks[parent].childEventSeq == Run(START, ops).db.tasks[parent].childEventSeq
            && db.tasks[parent].lastWokenSeq == db.tasks[parent].childEventSeq
  {
    hide Run, Continue, Satisfied, WorldInv, AllLapsed;
    assert WorldInv(Run(START, ops)) by {
      StartIsOk();
      RunKeepsWorld(START, ops);
    }
    more := TwoRounds(Run(START, ops), parent, p, now, seconds, text);
    RunContinues(START, ops, more);
  }

  lemma RoundBasics(w: World, u: World, parent: TaskId, p: Predicate, now: real, id: nat)
    requires RoundDone(w, u, parent, p, now, id) && Satisfied(w.db.tasks, parent, p)
    ensures WorldInv(u) && AllLapsed(u.db.wakes, now) && parent in w.db.tasks && parent in u.db.tasks
    ensures u.db.tasks[parent].childEventSeq == w.db.tasks[parent].childEventSeq
    ensures u.db.tasks[parent].lastWokenSeq <= u.db.tasks[parent].childEventSeq
    ensures Satisfied(u.db.tasks, parent, p)
  {
    hide Satisfied, AllLapsed;
    WatermarkBounded(u.db, parent);
    hide WorldInv;
    SatisfiedSame(w.db.tasks, u.db.tasks, parent, p);
  }

  lemma TwoRounds(w: World, parent: TaskId, p: Predicate, now: real, seconds: real, text: string) returns (more: seq<Op>)
    requires WorldInv(w) && AllLapsed(w.db.wakes, now) && Behind(w.db, parent) && Satisfied(w.db.tasks, parent, p)
    ensures var db := Continue(w, more).db;
            && parent in db.tasks && db.tasks[parent].childEventSeq == w.db.tasks[parent].childEventSeq
            && db.tasks[parent].lastWokenSeq == db.tasks[parent].childEventSeq
  {
    hide Satisfied, Continue, WorldInv, AllLapsed, RoundDone;
    var first, id := OneRound(w, parent, p, now, seconds, text);
    var u := Continue(w, first);
    RoundBasics(w, u, parent, p, now, id);
    if u.db.tasks[parent].lastWokenSeq == u.db.tasks[parent].childEventSeq {
      more := first;
    } else {
      var second, again := OneRound(u, parent, p, now, seconds, text);
      var v := Continue(u, second);
      RoundBasics(u, v, parent, p, now, again);
      NotAgain(w, u, v, parent, p, now, id, again);
      ContinueJoin(w, first, second);
      more := first + second;
    }
  }

  lemma {:induction false} ContinueJoin(w: World, a: seq<Op>, b: seq<Op>)
    ensures Continue(w, a + b) == Continue(Continue(w, a), b)
    decreases |a|
  {
    hide Apply;
    if a == [] {
      assert a + b == b;
    } else {
      assert (a + b)[0] == a[0] && (a + b)[1..] == a[1..] + b;
      ContinueJoin(Apply(w, a[0]), a[1..], b);
    }
  }

  /** The second round cannot meet an older wake of the key: the only live one was delivered by the first. */
  lemma NotAgain(w: World, u: World, v: World, parent: TaskId, p: Predicate, now: real, id: nat, again: nat)
    requires RoundDone(w, u, parent, p, now, id) && RoundDone(u, v, parent, p, now, again)
    ensures v.db.tasks[parent].lastWokenSeq >= v.db.tasks[parent].childEventSeq
  {
    hide WorldInv, AllLapsed;
    assert !Live(u.db.wakes[id]);
    assert again >= |u.db.wakes|;
  }
}
