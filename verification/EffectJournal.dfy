/**
 The launch journal (`effects.py`): one row for each task epoch, an expiring lease on the right to
 launch it, and a terminal row that doubles as the cleanup intent for a native workspace.
 */
module EffectJournal {
  import opened Options

  datatype EffectState = Reserved | Launched | Terminal

  datatype Effect = Effect(
    requestHash: string, state: EffectState, workspace: Option<string>, session: Option<string>,
    outcome: Option<string>, owner: string, lease: real, retryAt: Option<real>)

  datatype Slot = Slot(task: string, epoch: nat)

  /** `Granted` lets the caller launch; `Adopted` hands it a launch that already happened. */
  datatype Claimed = Granted(tookOver: bool) | Adopted | Busy | Conflict | Ended

  function NewEffect(hash: string, owner: string, lease: real): Effect {
    Effect(hash, Reserved, None, None, None, owner, lease, None)
  }

  /** State first, then lease, then owner, then request. */
  function Decide(row: Option<Effect>, hash: string, owner: string, now: real): Claimed {
    match row
    case None => Granted(false)
    case Some(e) =>
      match e.state
      case Terminal => Ended
      case Launched => Adopted
      case Reserved =>
        if e.lease <= now then Granted(true)
        else if e.owner != owner then Busy
        else if e.requestHash != hash then Conflict
        else Granted(false)
  }

  function Leased(row: Option<Effect>, hash: string, owner: string, lease: real): Effect {
    match row
    case None => NewEffect(hash, owner, lease)
    case Some(e) => e.(owner := owner, lease := lease)
  }

  datatype Op =
    | Reserve(hash: string, owner: string, ttl: real, now: real)
    | MarkLaunched(workspace: string, session: string)
    | MarkTerminal(outcome: string, retryAt: Option<real>)
    | MarkRefused(reason: string, retryAt: Option<real>)
    | MarkSuperseded(workspace: string)
    | MarkCleanup(workspace: string)      // a late workspace on a row that has ended already
    | Acknowledge(workspace: string)      // a stop of exactly this workspace returned
    | Retire(moment: real)                // the expiry sweep
    | RecordLoss(reason: string)          // a typed loss, written with the task's own terminal

  predicate Open(e: Effect) {
    e.state == Reserved || e.state == Launched
  }

  /** One journal write on a row; a write whose guard fails leaves the row as it was. */
  function Wrote(e: Effect, op: Op): Effect {
    match op
    case Reserve(hash, owner, ttl, now) =>
      if Decide(Some(e), hash, owner, now).Granted? then Leased(Some(e), hash, owner, now + ttl) else e
    case MarkLaunched(workspace, session) =>
      if Open(e) then e.(state := Launched, workspace := Some(workspace), session := Some(session)) else e
    case MarkTerminal(outcome, retryAt) =>
      if Open(e) then e.(state := Terminal, outcome := Some(outcome), retryAt := retryAt) else e
    case MarkRefused(reason, retryAt) =>
      if e.state == Reserved then e.(outcome := Some("refused:" + reason), retryAt := retryAt) else e
    case MarkSuperseded(workspace) =>
      if Open(e) then e.(state := Terminal, workspace := Some(workspace), outcome := Some("superseded")) else e
    case MarkCleanup(workspace) =>
      if e.state == Terminal then e.(workspace := Some(workspace), outcome := Some("superseded")) else e
    case Acknowledge(workspace) =>
      if e.state == Terminal && e.workspace == Some(workspace) then e.(workspace := None) else e
    case Retire(moment) =>
      if e.state == Reserved && e.lease < moment then e.(state := Terminal, outcome := Some("lost:reservation-expired")) else e
    case RecordLoss(reason) =>
      if Open(e) then e.(state := Terminal, outcome := Some(reason)) else e
  }

  function Apply(row: Option<Effect>, op: Op): Option<Effect> {
    match row
    case Some(e) => Some(Wrote(e, op))
    case None => if op.Reserve? then Some(NewEffect(op.hash, op.owner, op.now + op.ttl)) else None
  }

  // ---- the journal ----

  class Journal {
    var effects: map<Slot, Effect>

    function Row(s: Slot): Option<Effect>
      reads this
    {
      if s in effects then Some(effects[s]) else None
    }

    constructor ()
      ensures effects == map[]
    {
      effects := map[];
    }

    method ReserveLaunch(s: Slot, hash: string, owner: string, ttl: real, now: real) returns (r: Claimed)
      modifies this
      ensures r == Decide(old(Row(s)), hash, owner, now)
      ensures Row(s) == Apply(old(Row(s)), Reserve(hash, owner, ttl, now))
      ensures forall x :: x != s ==> Row(x) == old(Row(x))
    {
      if s !in effects {
        effects := effects[s := NewEffect(hash, owner, now + ttl)];
        return Granted(false);
      }
      var existing := effects[s];
      if existing.state == Terminal {
        return Ended;
      }
      if existing.state == Launched {
        return Adopted;
      }
      if existing.lease > now {
        if existing.owner != owner {
          return Busy;
        }
        if existing.requestHash != hash {
          return Conflict;
        }
      }
      r := Granted(existing.lease <= now);
      effects := effects[s := existing.(owner := owner, lease := now + ttl)];
    }

    /** `_advance`: false is `EffectTerminal`, for a row that is missing or past the states named. */
    method Advance(s: Slot, expected: set<EffectState>, assign: Effect -> Effect) returns (ok: bool)
      modifies this
      ensures ok <==> s in old(effects) && old(effects)[s].state in expected
      ensures effects == if ok then old(effects)[s := assign(old(effects)[s])] else old(effects)
    {
      ok := s in effects && effects[s].state in expected;
      if ok {
        effects := effects[s := assign(effects[s])];
      }
    }

    method BindSession(s: Slot, workspace: string, session: string) returns (ok: bool)
      modifies this
      ensures ok <==> s in old(effects) && Open(old(effects)[s])
      ensures Row(s) == Apply(old(Row(s)), MarkLaunched(workspace, session))
      ensures forall x :: x != s ==> Row(x) == old(Row(x))
    {
      ok := Advance(s, {Reserved, Launched},
        (e: Effect) => e.(state := Launched, workspace := Some(workspace), session := Some(session)));
    }

    method EndEpoch(s: Slot, outcome: string, retryAt: Option<real>) returns (ok: bool)
      modifies this
      ensures ok <==> s in old(effects) && Open(old(effects)[s])
      ensures Row(s) == Apply(old(Row(s)), MarkTerminal(outcome, retryAt))
      ensures forall x :: x != s ==> Row(x) == old(Row(x))
    {
      ok := Advance(s, {Reserved, Launched}, (e: Effect) => e.(state := Terminal, outcome := Some(outcome), retryAt := retryAt));
    }

    method RecordRefusal(s: Slot, reason: string, retryAt: Option<real>) returns (ok: bool)
      modifies this
      ensures ok <==> s in old(effects) && old(effects)[s].state == Reserved
      ensures Row(s) == Apply(old(Row(s)), MarkRefused(reason, retryAt))
      ensures forall x :: x != s ==> Row(x) == old(Row(x))
    {
      ok := Advance(s, {Reserved}, (e: Effect) => e.(outcome := Some("refused:" + reason), retryAt := retryAt));
    }

    method Supersede(s: Slot, workspace: string) returns (ok: bool)
      modifies this
      ensures ok <==> s in old(effects) && Open(old(effects)[s])
      ensures Row(s) == Apply(old(Row(s)), MarkSuperseded(workspace))
      ensures forall x :: x != s ==> Row(x) == old(Row(x))
    {
      ok := Advance(s, {Reserved, Launched},
        (e: Effect) => e.(state := Terminal, workspace := Some(workspace), outcome := Some("superseded")));
    }

    method CleanupWorkspace(s: Slot, workspace: string) returns (ok: bool)
      modifies this
      ensures ok <==> s in old(effects)
      ensures Row(s) == Apply(old(Row(s)), MarkCleanup(workspace))
      ensures forall x :: x != s ==> Row(x) == old(Row(x))
    {
      ok := s in effects;
      if ok && effects[s].state == Terminal {
        effects := effects[s := effects[s].(workspace := Some(workspace), outcome := Some("superseded"))];
      }
    }

    /** The second half of `stop_terminal`, after the executor's stop of `workspace` returned. */
    method AcknowledgeStop(s: Slot, workspace: string)
      modifies this
      ensures Row(s) == Apply(old(Row(s)), Acknowledge(workspace))
      ensures forall x :: x != s ==> Row(x) == old(Row(x))
    {
      if s in effects && effects[s].state == Terminal && effects[s].workspace == Some(workspace) {
        effects := effects[s := effects[s].(workspace := None)];
      }
    }

    method RetireReservation(s: Slot, moment: real) returns (retired: bool)
      modifies this
      ensures retired <==> s in old(effects) && old(effects)[s].state == Reserved && old(effects)[s].lease < moment
      ensures Row(s) == Apply(old(Row(s)), Retire(moment))
      ensures forall x :: x != s ==> Row(x) == old(Row(x))
    {
      retired := s in effects && effects[s].state == Reserved && effects[s].lease < moment;
      if retired {
        effects := effects[s := effects[s].(state := Terminal, outcome := Some("lost:reservation-expired"))];
      }
    }
  }

  // ---- runs of one row ----

  function Run(row: Option<Effect>, ops: seq<Op>): Option<Effect> {
    if ops == [] then row else Apply(Run(row, ops[..|ops| - 1]), ops[|ops| - 1])
  }

  function Rank(s: EffectState): nat {
    match s case Reserved => 0 case Launched => 1 case Terminal => 2
  }

  lemma StepMovesForward(e: Effect, op: Op)
    ensures Rank(e.state) <= Rank(Wrote(e, op).state) && Wrote(e, op).requestHash == e.requestHash
    ensures e.state == Terminal ==> Wrote(e, op).(workspace := None, outcome := None) == e.(workspace := None, outcome := None)
  {
  }

  /**
   Over any run a row only moves reserved, launched, terminal; it keeps the request it was first
   reserved for; and once terminal, owner, lease, session and state stay and no reservation is granted.
   */
  lemma {:induction false} RowsMoveForward(e: Effect, ops: seq<Op>)
    ensures var r := Run(Some(e), ops);
            && r.Some? && Rank(e.state) <= Rank(r.value.state) && r.value.requestHash == e.requestHash
            && (e.state == Terminal ==>
                  && r.value.state == Terminal && r.value.owner == e.owner && r.value.lease == e.lease && r.value.session == e.session
                  && forall hash, owner, now :: Decide(r, hash, owner, now) == Ended)
    decreases |ops|
  {
    hide Wrote;
    if ops != [] {
      RowsMoveForward(e, ops[..|ops| - 1]);
      StepMovesForward(Run(Some(e), ops[..|ops| - 1]).value, ops[|ops| - 1]);
    }
  }

  // ---- the lease excludes ----

  datatype Grant = Grant(owner: string, at: real)

  function Grants(row: Option<Effect>, ops: seq<Op>): seq<Grant> {
    if ops == [] then []
    else
      var before, op := ops[..|ops| - 1], ops[|ops| - 1];
      Grants(row, before)
      + if op.Reserve? && Decide(Run(row, before), op.hash, op.owner, op.now).Granted? then [Grant(op.owner, op.now)] else []
  }

  /** One lease length, and reservations at times that never go back. */
  ghost predicate Clocked(ops: seq<Op>, ttl: real) {
    && (forall i :: 0 <= i < |ops| && ops[i].Reserve? ==> ops[i].ttl == ttl)
    && (forall i, j :: 0 <= i < j < |ops| && ops[i].Reserve? && ops[j].Reserve? ==> ops[i].now <= ops[j].now)
  }

  /** Two grants to different owners are at least a lease apart. */
  ghost predicate Apart(gs: seq<Grant>, ttl: real) {
    forall i, j :: 0 <= i < j < |gs| && gs[i].owner != gs[j].owner ==> gs[i].at + ttl <= gs[j].at
  }

  /** While the row is reserved, its lease runs from the last grant, which went to its owner. */
  predicate LastGranted(row: Option<Effect>, gs: seq<Grant>, ttl: real) {
    if row.None? then gs == []
    else gs != [] && gs[|gs| - 1] == Grant(row.value.owner, row.value.lease - ttl)
  }

  ghost predicate Ordered(gs: seq<Grant>) {
    forall i, j :: 0 <= i < j < |gs| ==> gs[i].at <= gs[j].at
  }

  lemma {:induction false} GrantsBefore(ops: seq<Op>, t: real)
    requires forall i: nat :: i < |ops| && ops[i].Reserve? ==> ops[i].now <= t
    ensures forall g :: g in Grants(None, ops) ==> g.at <= t
    decreases |ops|
  {
    hide Run, Decide;
    if ops != [] {
      GrantsBefore(ops[..|ops| - 1], t);
    }
  }

  lemma GrantMeans(row: Option<Effect>, gs: seq<Grant>, ttl: real, op: Op)
    requires LastGranted(row, gs, ttl) && op.Reserve? && op.ttl == ttl
    requires Decide(row, op.hash, op.owner, op.now).Granted?
    ensures LastGranted(Apply(row, op), gs + [Grant(op.owner, op.now)], ttl)
    ensures gs != [] && gs[|gs| - 1].owner != op.owner ==> gs[|gs| - 1].at + ttl <= op.now
  {
  }

  lemma OtherWritesKeepGrants(row: Option<Effect>, gs: seq<Grant>, ttl: real, op: Op)
    requires LastGranted(row, gs, ttl)
    requires op.Reserve? ==> !Decide(row, op.hash, op.owner, op.now).Granted?
    ensures LastGranted(Apply(row, op), gs, ttl)
  {
  }

  lemma GrantExtends(gs: seq<Grant>, g: Grant, ttl: real)
    requires ttl >= 0.0 && Apart(gs, ttl) && Ordered(gs)
    requires forall k :: 0 <= k < |gs| ==> gs[k].at <= g.at
    requires gs != [] && gs[|gs| - 1].owner != g.owner ==> gs[|gs| - 1].at + ttl <= g.at
    ensures Apart(gs + [g], ttl) && Ordered(gs + [g])
  {
    forall i | 0 <= i < |gs| && gs[i].owner != g.owner ensures gs[i].at + ttl <= g.at {
      if gs[i].owner != gs[|gs| - 1].owner {
        assert gs[i].at + ttl <= gs[|gs| - 1].at;
      }
    }
  }

  lemma {:induction false} GrantsAreKept(ops: seq<Op>, ttl: real)
    requires ttl >= 0.0 && Clocked(ops, ttl)
    ensures var gs := Grants(None, ops);
            LastGranted(Run(None, ops), gs, ttl) && Apart(gs, ttl) && Ordered(gs)
    decreases |ops|
  {
    hide Apply, Decide, LastGranted, Apart, Ordered;
    if ops == [] {
      EmptyGrants(ttl);
    } else {
      var before, op := ops[..|ops| - 1], ops[|ops| - 1];
      var row, gs := Run(None, before), Grants(None, before);
      GrantsAreKept(before, ttl);
      if op.Reserve? && Decide(row, op.hash, op.owner, op.now).Granted? {
        GrantMeans(row, gs, ttl, op);
        GrantsBefore(before, op.now);
        assert forall k :: 0 <= k < |gs| ==> gs[k] in gs;
        GrantExtends(gs, Grant(op.owner, op.now), ttl);
      } else {
        OtherWritesKeepGrants(row, gs, ttl, op);
        assert gs + [] == gs;
      }
    }
  }

  lemma EmptyGrants(ttl: real)
    ensures LastGranted(None, [], ttl) && Apart([], ttl) && Ordered([])
  {
  }

  /** Mutual exclusion: whatever else is written to the row, two owners are granted its launch at least a lease apart. */
  lemma OwnersAreALeaseApart(ops: seq<Op>, ttl: real, i: nat, j: nat)
    requires ttl >= 0.0 && Clocked(ops, ttl)
    requires i < j < |Grants(None, ops)| && Grants(None, ops)[i].owner != Grants(None, ops)[j].owner
    ensures Grants(None, ops)[i].at + ttl <= Grants(None, ops)[j].at
  {
    hide Grants, Run;
    GrantsAreKept(ops, ttl);
  }

  // ---- the lease is handed on ----

  /**
   A row nobody reserved, or whose lease has run out, is granted to whoever asks, under any request;
   until the new lease runs out every other owner is busy, the owner itself is granted again for the
   same request only, and it still carries the request it was first reserved for.
   */
  lemma ReservationsAreTakenOver(row: Option<Effect>, hash: string, owner: string, ttl: real, now: real,
                                 otherHash: string, other: string, t: real)
    requires row.None? || (row.value.state == Reserved && row.value.lease <= now)
    ensures Decide(row, hash, owner, now) == Granted(row.Some?)
    ensures var after := Apply(row, Reserve(hash, owner, ttl, now));
            && after == Some(if row.None? then Effect(hash, Reserved, None, None, None, owner, now + ttl, None)
                             else row.value.(owner := owner, lease := now + ttl))
            && Decide(after, otherHash, other, t) ==
               if t >= now + ttl then Granted(true)
               else if other != owner then Busy
               else if otherHash == after.value.requestHash then Granted(false)
               else Conflict
  {
  }

  /** A launched row is handed over as it is, and an ended one to nobody, whatever the lease. */
  lemma OnlyReservationsAreGranted(e: Effect, hash: string, owner: string, ttl: real, now: real)
    ensures e.state == Launched ==> Decide(Some(e), hash, owner, now) == Adopted
    ensures e.state == Terminal ==> Decide(Some(e), hash, owner, now) == Ended
    ensures e.state != Reserved ==> Apply(Some(e), Reserve(hash, owner, ttl, now)) == Some(e)
    ensures e.state == Reserved && now < e.lease && (owner != e.owner || hash != e.requestHash) ==>
              Apply(Some(e), Reserve(hash, owner, ttl, now)) == Some(e)
  {
  }

  /** What each write leaves of a row that has not ended. */
  lemma WritesLandOnOpenRows(e: Effect, workspace: string, text: string, retryAt: Option<real>, moment: real)
    requires e.state != Terminal
    ensures Wrote(e, MarkLaunched(workspace, text)) == e.(state := Launched, workspace := Some(workspace), session := Some(text))
    ensures Wrote(e, MarkTerminal(text, retryAt)) == e.(state := Terminal, outcome := Some(text), retryAt := retryAt)
    ensures Wrote(e, MarkSuperseded(workspace)) ==
            e.(state := Terminal, workspace := Some(workspace), outcome := Some("superseded"))
    ensures Wrote(e, RecordLoss(text)) == e.(state := Terminal, outcome := Some(text))
    ensures Wrote(e, MarkRefused(text, retryAt)) ==
            if e.state == Reserved then e.(outcome := Some("refused:" + text), retryAt := retryAt) else e
    ensures Wrote(e, Retire(moment)) ==
            if e.state == Reserved && e.lease < moment then e.(state := Terminal, outcome := Some("lost:reservation-expired"))
            else e
    ensures Wrote(e, MarkCleanup(workspace)) == e && Wrote(e, Acknowledge(workspace)) == e
  {
  }

  /** What each write leaves of a row that has: cleanup and its acknowledgement land, and nothing else does. */
  lemma WritesLandOnEndedRows(e: Effect, op: Op)
    requires e.state == Terminal
    ensures op.MarkCleanup? ==> Wrote(e, op) == e.(workspace := Some(op.workspace), outcome := Some("superseded"))
    ensures op.Acknowledge? ==> Wrote(e, op) == if e.workspace == Some(op.workspace) then e.(workspace := None) else e
    ensures !op.MarkCleanup? && !op.Acknowledge? ==> Wrote(e, op) == e
  {
  }
}
