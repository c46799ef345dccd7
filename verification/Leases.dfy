/**
 Ownership leases (`leases.py`): one file for each repository and worktree, read and written under
 one lock. An expired lease stays in its file until somebody sweeps it, and may be renewed.
 */
module Leases {
  import opened Options

  /** What a file is named after; the digest is read as injective. */
  datatype Identity = Identity(repo: string, worktree: Option<string>)

  datatype Lease = Lease(token: string, owner: string, expires: real, workspace: Option<string>, session: Option<string>)

  type Files = map<Identity, Lease>

  datatype State = State(files: Files, workspaces: map<string, string>)

  /** `Lease.conflicts`, between the things two leases own. */
  predicate Conflicts(a: Identity, b: Identity) {
    if a.repo != b.repo then a.worktree.Some? && a.worktree == b.worktree
    else a.worktree.None? || b.worktree.None? || a.worktree == b.worktree
  }

  predicate Expired(l: Lease, now: real) {
    l.expires <= now
  }

  /** `clock` is when each file is looked at: the clock is read again for every one. */
  type Clock = Identity -> real

  function Removed(s: State, id: Identity): State
    requires id in s.files
  {
    State(s.files - {id},
          if s.files[id].workspace.Some? then s.workspaces - {s.files[id].workspace.value} else s.workspaces)
  }

  /** The directory listing: every file once, in any order. */
  ghost predicate Lists(order: seq<Identity>, files: Files) {
    && (forall i :: 0 <= i < |order| ==> order[i] in files)
    && (forall i, j :: 0 <= i < j < |order| ==> order[i] != order[j])
    && (forall id :: id in files ==> id in order)
  }

  /** Nothing that is live when it is looked at conflicts. */
  ghost predicate Free(files: Files, clock: Clock, id: Identity) {
    forall x :: x in files ==> Expired(files[x], clock(x)) || !Conflicts(x, id)
  }

  function LiveFiles(files: Files, clock: Clock): Files {
    map x | x in files && !Expired(files[x], clock(x)) :: files[x]
  }

  /** Only leases that had expired when they were looked at are gone, and none is new. */
  ghost predicate OnlyExpiredRemoved(before: Files, after: Files, clock: Clock) {
    && (forall x :: x in after ==> x in before && after[x] == before[x])
    && (forall x :: x in before && x !in after ==> Expired(before[x], clock(x)))
  }

  function FindToken(files: Files, order: seq<Identity>, token: string): Option<Identity> {
    if order == [] then None
    else if order[0] in files && files[order[0]].token == token then Some(order[0])
    else FindToken(files, order[1..], token)
  }

  predicate OwnerMatches(l: Lease, owner: Option<string>, workspace: Option<string>) {
    && (owner.Some? && owner.value != "" ==> l.owner == owner.value)
    && (workspace.Some? && workspace.value != "" ==> l.workspace == workspace)
  }

  /** The lease a token names, if it may be touched. */
  function Held(files: Files, order: seq<Identity>, token: string, owner: Option<string>, workspace: Option<string>): Option<Identity> {
    var id := FindToken(files, order, token);
    if id.Some? && id.value in files && OwnerMatches(files[id.value], owner, workspace) then id else None
  }

  function Renewed(s: State, id: Option<Identity>, expires: real): State {
    if id.Some? && id.value in s.files then s.(files := s.files[id.value := s.files[id.value].(expires := expires)]) else s
  }

  /** Python's `session_id or lease.session_id`. */
  function Chosen(session: Option<string>, known: Option<string>): Option<string> {
    if session.Some? && session.value != "" then session else known
  }

  function Attached(s: State, id: Option<Identity>, token: string, workspace: string, session: Option<string>): State {
    if id.Some? && id.value in s.files then
      State(s.files[id.value := s.files[id.value].(workspace := Some(workspace),
                                                  session := Chosen(session, s.files[id.value].session))],
            s.workspaces[workspace := token])
    else s
  }

  function Released(s: State, id: Option<Identity>): State {
    if id.Some? && id.value in s.files then Removed(s, id.value) else s
  }

  class LeaseStore {
    var files: Files
    var workspaces: map<string, string>

    function Contents(): State
      reads this
    {
      State(files, workspaces)
    }

    constructor ()
      ensures Contents() == State(map[], map[])
    {
      files, workspaces := map[], map[];
    }

    method Remove(id: Identity)
      requires id in files
      modifies this
      ensures Contents() == Removed(old(Contents()), id)
    {
      var lease := files[id];
      files := files - {id};
      if lease.workspace.Some? {
        workspaces := workspaces - {lease.workspace.value};
      }
    }

    /**
     Removes what has expired and stops at the first live conflict: acquired if and only if there
     is none, whatever the order of the files; refused part-way, it keeps the removals it made.
     */
    method Acquire(id: Identity, lease: Lease, ttl: int, order: seq<Identity>, clock: Clock) returns (ok: bool)
      requires Lists(order, files)
      modifies this
      ensures ok <==> ttl > 0 && Free(old(files), clock, id)
      ensures ok ==> files == LiveFiles(old(files), clock)[id := lease]
      ensures !ok ==> OnlyExpiredRemoved(old(files), files, clock)
    {
      if ttl <= 0 {
        return false;
      }
      var before := files;
      var i := 0;
      while i < |order|
        invariant 0 <= i <= |order|
        invariant Scanned(before, files, order, i, clock, id)
      {
        var x := order[i];
        ScanReads(before, files, order, i, clock, id);
        if Expired(files[x], clock(x)) {
          Remove(x);
        } else if Conflicts(x, id) {
          ScanRefuses(before, files, order, i, clock, id);
          return false;
        }
        i := i + 1;
      }
      ScanEnds(before, files, order, clock, id);
      files := files[id := lease];
      if lease.workspace.Some? && lease.workspace.value != "" {
        workspaces := workspaces[lease.workspace.value := lease.token];
      }
      ok := true;
    }

    /** The sweep: exactly the leases live when they are looked at stay. */
    method RecoverStale(order: seq<Identity>, clock: Clock)
      requires Lists(order, files)
      modifies this
      ensures files == LiveFiles(old(files), clock)
    {
      var before := files;
      var i := 0;
      while i < |order|
        invariant 0 <= i <= |order|
        invariant Swept(before, files, order, i, clock)
      {
        SweepReads(before, files, order, i, clock);
        if Expired(files[order[i]], clock(order[i])) {
          Remove(order[i]);
        }
        i := i + 1;
      }
      SweepEnds(before, files, order, clock);
    }

    method Find(token: string, order: seq<Identity>) returns (id: Option<Identity>)
      ensures id == FindToken(files, order, token)
    {
      var i := 0;
      while i < |order|
        invariant 0 <= i <= |order|
        invariant FindToken(files, order, token) == FindToken(files, order[i..], token)
      {
        assert order[i..][1..] == order[i + 1..];
        if order[i] in files && files[order[i]].token == token {
          return Some(order[i]);
        }
        i := i + 1;
      }
      id := None;
    }

    /** An expired lease is renewed like any other. */
    method Renew(token: string, ttl: int, owner: Option<string>, workspace: Option<string>, order: seq<Identity>, now: real)
      returns (id: Option<Identity>)
      modifies this
      ensures id == if ttl > 0 then Held(old(files), order, token, owner, workspace) else None
      ensures Contents() == Renewed(old(Contents()), id, now + ttl as real)
    {
      if ttl <= 0 {
        return None;
      }
      id := Find(token, order);
      if id.None? || id.value !in files || !OwnerMatches(files[id.value], owner, workspace) {
        return None;
      }
      files := files[id.value := files[id.value].(expires := now + ttl as real)];
    }

    method RenewWorkspace(workspace: string, ttl: int, order: seq<Identity>, now: real) returns (id: Option<Identity>)
      modifies this
      ensures id == if ttl > 0 && workspace in old(workspaces) then
                      Held(old(files), order, old(workspaces)[workspace], None, Some(workspace))
                    else None
      ensures Contents() == Renewed(old(Contents()), id, now + ttl as real)
    {
      if workspace !in workspaces {
        return None;
      }
      id := Renew(workspaces[workspace], ttl, None, Some(workspace), order, now);
    }

    method AttachWorkspace(token: string, workspace: string, session: Option<string>, order: seq<Identity>)
      returns (id: Option<Identity>)
      modifies this
      ensures id == Held(old(files), order, token, None, None)
      ensures Contents() == Attached(old(Contents()), id, token, workspace, session)
    {
      id := Find(token, order);
      if id.None? || id.value !in files {
        return None;
      }
      var lease := files[id.value];
      files := files[id.value := lease.(workspace := Some(workspace), session := Chosen(session, lease.session))];
      workspaces := workspaces[workspace := token];
    }

    method Release(token: string, owner: Option<string>, workspace: Option<string>, order: seq<Identity>)
      returns (id: Option<Identity>)
      modifies this
      ensures id == Held(old(files), order, token, owner, workspace)
      ensures Contents() == Released(old(Contents()), id)
    {
      id := Find(token, order);
      if id.None? || id.value !in files || !OwnerMatches(files[id.value], owner, workspace) {
        return None;
      }
      Remove(id.value);
    }

    method ReleaseWorkspace(workspace: string, order: seq<Identity>) returns (id: Option<Identity>)
      modifies this
      ensures id == if workspace in old(workspaces) then
                      Held(old(files), order, old(workspaces)[workspace], None, Some(workspace))
                    else None
      ensures Contents() == Released(old(Contents()), id)
    {
      if workspace !in workspaces {
        return None;
      }
      id := Release(workspaces[workspace], None, Some(workspace), order);
    }
  }

  // ---- the scans ----

  /** After `i` files: the rest untouched, the expired ones gone, nothing live in conflict yet. */
  ghost predicate Scanned(before: Files, now: Files, order: seq<Identity>, i: nat, clock: Clock, id: Identity) {
    && i <= |order| && Swept(before, now, order, i, clock)
    && (forall k :: 0 <= k < i ==> order[k] in before && (Expired(before[order[k]], clock(order[k])) || !Conflicts(order[k], id)))
  }

  ghost predicate Swept(before: Files, now: Files, order: seq<Identity>, i: nat, clock: Clock) {
    && i <= |order| && Lists(order, before)
    && (forall x :: x in now ==> x in before && now[x] == before[x])
    && (forall k :: 0 <= k < i ==> (order[k] in now <==> !Expired(before[order[k]], clock(order[k]))))
    && (forall k :: i <= k < |order| ==> order[k] in now)
  }

  lemma SweepReads(before: Files, now: Files, order: seq<Identity>, i: nat, clock: Clock)
    requires Swept(before, now, order, i, clock) && i < |order|
    ensures order[i] in now && now[order[i]] == before[order[i]]
    ensures Expired(before[order[i]], clock(order[i])) ==> Swept(before, now - {order[i]}, order, i + 1, clock)
    ensures !Expired(before[order[i]], clock(order[i])) ==> Swept(before, now, order, i + 1, clock)
  {
  }

  lemma ScanReads(before: Files, now: Files, order: seq<Identity>, i: nat, clock: Clock, id: Identity)
    requires Scanned(before, now, order, i, clock, id) && i < |order|
    ensures order[i] in now && now[order[i]] == before[order[i]]
    ensures Expired(before[order[i]], clock(order[i])) ==> Scanned(before, now - {order[i]}, order, i + 1, clock, id)
    ensures !Expired(before[order[i]], clock(order[i])) && !Conflicts(order[i], id) ==> Scanned(before, now, order, i + 1, clock, id)
  {
    SweepReads(before, now, order, i, clock);
    hide Swept;
    ListedKnown(before, now, order, i, clock);
  }

  lemma ListedKnown(before: Files, now: Files, order: seq<Identity>, i: nat, clock: Clock)
    requires Swept(before, now, order, i, clock)
    ensures forall k :: 0 <= k < |order| ==> order[k] in before
  {
  }

  lemma ScanRefuses(before: Files, now: Files, order: seq<Identity>, i: nat, clock: Clock, id: Identity)
    requires Scanned(before, now, order, i, clock, id) && i < |order|
    requires order[i] in before && !Expired(before[order[i]], clock(order[i])) && Conflicts(order[i], id)
    ensures !Free(before, clock, id) && OnlyExpiredRemoved(before, now, clock)
  {
    SweepRemovesExpired(before, now, order, i, clock);
  }

  lemma SweepRemovesExpired(before: Files, now: Files, order: seq<Identity>, i: nat, clock: Clock)
    requires Swept(before, now, order, i, clock)
    ensures OnlyExpiredRemoved(before, now, clock)
  {
    forall x | x in before && x !in now ensures Expired(before[x], clock(x)) {
      var k :| 0 <= k < |order| && order[k] == x;
    }
  }

  lemma SweepEnds(before: Files, now: Files, order: seq<Identity>, clock: Clock)
    requires Swept(before, now, order, |order|, clock)
    ensures now == LiveFiles(before, clock)
  {
    forall x ensures x in now <==> x in LiveFiles(before, clock) {
      if x in before {
        var k :| 0 <= k < |order| && order[k] == x;
      }
    }
  }

  lemma ScanEnds(before: Files, now: Files, order: seq<Identity>, clock: Clock, id: Identity)
    requires Scanned(before, now, order, |order|, clock, id)
    ensures now == LiveFiles(before, clock) && Free(before, clock, id)
  {
    SweepEnds(before, now, order, clock);
    forall x | x in before ensures Expired(before[x], clock(x)) || !Conflicts(x, id) {
      var k :| 0 <= k < |order| && order[k] == x;
    }
  }

  // ---- what is stored never conflicts ----

  /** Expired leases included. */
  ghost predicate Disjoint(files: Files) {
    forall a, b :: a in files && b in files && a != b ==> !Conflicts(a, b)
  }

  lemma ConflictIsSymmetric(a: Identity, b: Identity)
    ensures Conflicts(a, b) <==> Conflicts(b, a)
    ensures Conflicts(a, a)
  {
  }

  /** An acquired lease replaces no file and conflicts with none that stays. */
  lemma AcquireKeepsDisjoint(files: Files, clock: Clock, id: Identity, lease: Lease)
    requires Disjoint(files) && Free(files, clock, id)
    ensures id !in LiveFiles(files, clock) && Disjoint(LiveFiles(files, clock)[id := lease])
  {
    var live := LiveFiles(files, clock);
    ConflictIsSymmetric(id, id);
    forall a, b | a in live[id := lease] && b in live[id := lease] && a != b ensures !Conflicts(a, b) {
      ConflictIsSymmetric(a, b);
    }
  }

  lemma FewerStayDisjoint(before: Files, after: Files)
    requires Disjoint(before) && after.Keys <= before.Keys
    ensures Disjoint(after)
  {
  }

  datatype Op =
    | Acquire(id: Identity, lease: Lease, ttl: int, order: seq<Identity>, clock: Clock)
    | Renew(token: string, ttl: int, owner: Option<string>, workspace: Option<string>, order: seq<Identity>, now: real)
    | RenewWorkspace(held: string, ttl: int, order: seq<Identity>, now: real)
    | Attach(token: string, attached: string, session: Option<string>, order: seq<Identity>)
    | Release(token: string, owner: Option<string>, workspace: Option<string>, order: seq<Identity>)
    | ReleaseWorkspace(held: string, order: seq<Identity>)
    | Sweep(clock: Clock)
    | SpawnCheck(clock: Clock)               // `assert_spawn_allowed` sweeps until it refuses

  /** What the promises of the methods above allow a step to leave. */
  ghost predicate Step(s: State, op: Op, t: State) {
    match op
    case Acquire(id, lease, ttl, order, clock) =>
      if ttl > 0 && Free(s.files, clock, id) then t.files == LiveFiles(s.files, clock)[id := lease]
      else OnlyExpiredRemoved(s.files, t.files, clock)
    case Renew(token, ttl, owner, workspace, order, now) =>
      t == Renewed(s, if ttl > 0 then Held(s.files, order, token, owner, workspace) else None, now + ttl as real)
    case RenewWorkspace(w, ttl, order, now) =>
      t == Renewed(s, if ttl > 0 && w in s.workspaces then Held(s.files, order, s.workspaces[w], None, Some(w)) else None,
                   now + ttl as real)
    case Attach(token, w, session, order) => t == Attached(s, Held(s.files, order, token, None, None), token, w, session)
    case Release(token, owner, workspace, order) => t == Released(s, Held(s.files, order, token, owner, workspace))
    case ReleaseWorkspace(w, order) =>
      t == Released(s, if w in s.workspaces then Held(s.files, order, s.workspaces[w], None, Some(w)) else None)
    case Sweep(clock) => t.files == LiveFiles(s.files, clock)
    case SpawnCheck(clock) => OnlyExpiredRemoved(s.files, t.files, clock)
  }

  lemma StepKeepsDisjoint(s: State, op: Op, t: State)
    requires Disjoint(s.files) && Step(s, op, t)
    ensures Disjoint(t.files)
  {
    hide Disjoint, Held, Free, Conflicts;
    match op
    case Acquire(id, lease, ttl, order, clock) =>
      if ttl > 0 && Free(s.files, clock, id) {
        AcquireKeepsDisjoint(s.files, clock, id, lease);
      } else {
        FewerStayDisjoint(s.files, t.files);
      }
    case _ => FewerStayDisjoint(s.files, t.files);
  }

  /** A run: each state follows from the one before by one operation. */
  ghost predicate IsRun(states: seq<State>, ops: seq<Op>) {
    && |states| == |ops| + 1 && states[0] == State(map[], map[])
    && forall i :: 0 <= i < |ops| ==> Step(states[i], ops[i], states[i + 1])
  }

  /** In every state of every run all stored leases, expired ones included, are pairwise without conflict. */
  lemma {:induction false} StoredLeasesNeverConflict(states: seq<State>, ops: seq<Op>, n: nat)
    requires IsRun(states, ops) && n < |states|
    ensures Disjoint(states[n].files)
    decreases n
  {
    hide Step;
    if n > 0 {
      StoredLeasesNeverConflict(states, ops, n - 1);
      hide Disjoint;
      assert Step(states[n - 1], ops[n - 1], states[n]);
      StepKeepsDisjoint(states[n - 1], ops[n - 1], states[n]);
    }
  }

  // ---- why the expired ones matter ----

  ghost predicate LiveDisjoint(files: Files, now: real) {
    forall a, b :: a in files && b in files && a != b && !Expired(files[a], now) && !Expired(files[b], now) ==> !Conflicts(a, b)
  }

  function BothRenewed(s: State, a: Identity, b: Identity, expires: real): State {
    Renewed(Renewed(s, Some(a), expires), Some(b), expires)
  }

  lemma RenewedAreLive(s: State, a: Identity, b: Identity, now: real, ttl: int)
    requires ttl > 0 && a in s.files && b in s.files && a != b
    requires LiveDisjoint(BothRenewed(s, a, b, now + ttl as real).files, now)
    ensures !Conflicts(a, b)
  {
    var t := BothRenewed(s, a, b, now + ttl as real);
    hide Conflicts;
    assert !Expired(t.files[a], now) && !Expired(t.files[b], now);
  }

  lemma DisjointIsEnough(s: State, a: Identity, b: Identity, expires: real, now: real)
    requires Disjoint(s.files)
    ensures LiveDisjoint(BothRenewed(s, a, b, expires).files, now)
  {
    hide Conflicts;
    FewerStayDisjoint(s.files, BothRenewed(s, a, b, expires).files);
  }

  /**
   Renewals keep the live leases apart, whichever two holders renew, if and only if all stored
   leases are apart: that live ones are is not enough, because a renewal needs no conflict check.
   */
  lemma RenewalNeedsTheExpired(s: State, now: real, ttl: int)
    requires ttl > 0
    ensures (forall a, b :: a in s.files && b in s.files ==> LiveDisjoint(BothRenewed(s, a, b, now + ttl as real).files, now)) <==>
            Disjoint(s.files)
  {
    hide LiveDisjoint, BothRenewed, Conflicts;
    var expires := now + ttl as real;
    if Disjoint(s.files) {
      forall a, b | a in s.files && b in s.files ensures LiveDisjoint(BothRenewed(s, a, b, expires).files, now) {
        DisjointIsEnough(s, a, b, expires, now);
      }
    } else {
      var a, b :| a in s.files && b in s.files && a != b && Conflicts(a, b);
      if LiveDisjoint(BothRenewed(s, a, b, expires).files, now) {
        RenewedAreLive(s, a, b, now, ttl);
      }
    }
  }

  // ---- what the words mean ----

  /** Two leases conflict exactly when they share a worktree, or one of them has the whole repository of the other. */
  lemma ConflictsExactly(a: Identity, b: Identity)
    ensures Conflicts(a, b) <==>
              || (a.worktree.Some? && a.worktree == b.worktree)
              || (a.repo == b.repo && (a.worktree.None? || b.worktree.None?))
  {
  }

  /** An acquisition is refused exactly for a stored lease that is live when it is looked at and shares what is asked for. */
  lemma FreeExactly(files: Files, clock: Clock, id: Identity)
    ensures !Free(files, clock, id) <==>
              exists x :: x in files && clock(x) < files[x].expires
                          && ((x.worktree.Some? && x.worktree == id.worktree)
                              || (x.repo == id.repo && (x.worktree.None? || id.worktree.None?)))
  {
    hide Conflicts;
    forall x: Identity
      ensures Conflicts(x, id) <==> (x.worktree.Some? && x.worktree == id.worktree)
                                    || (x.repo == id.repo && (x.worktree.None? || id.worktree.None?))
    {
      ConflictsExactly(x, id);
    }
  }

  lemma LiveExactly(files: Files, clock: Clock, x: Identity)
    ensures x in LiveFiles(files, clock) <==> x in files && clock(x) < files[x].expires
    ensures x in LiveFiles(files, clock) ==> LiveFiles(files, clock)[x] == files[x]
  {
  }

  lemma {:induction false} TokenIsFound(files: Files, order: seq<Identity>, token: string, id: Identity)
    requires id in order && id in files && files[id].token == token
    requires forall x :: x in files && files[x].token == token ==> x == id
    ensures FindToken(files, order, token) == Some(id)
    decreases |order|
  {
    if !(order[0] in files && files[order[0]].token == token) {
      TokenIsFound(files, order[1..], token, id);
    }
  }

  lemma {:induction false} TokenIsNotFound(files: Files, order: seq<Identity>, token: string)
    requires forall x :: x in files ==> files[x].token != token
    ensures FindToken(files, order, token) == None
    decreases |order|
  {
    if order != [] {
      TokenIsNotFound(files, order[1..], token);
    }
  }

  /**
   Tokens being unique, the bearer of a lease's token may touch exactly that lease, live or expired,
   provided the owner and the workspace it names, if any, are those of the lease; another token
   touches nothing.
   */
  lemma BearersHoldTheirLease(files: Files, order: seq<Identity>, id: Identity, owner: Option<string>, workspace: Option<string>)
    requires Lists(order, files) && id in files
    requires forall x :: x in files && files[x].token == files[id].token ==> x == id
    ensures Held(files, order, files[id].token, owner, workspace) ==
            if (owner.None? || owner.value == "" || owner.value == files[id].owner)
               && (workspace.None? || workspace.value == "" || workspace == files[id].workspace) then Some(id)
            else None
  {
    TokenIsFound(files, order, files[id].token, id);
  }

  lemma StrangersHoldNothing(files: Files, order: seq<Identity>, token: string, owner: Option<string>, workspace: Option<string>)
    requires forall x :: x in files ==> files[x].token != token
    ensures Held(files, order, token, owner, workspace) == None
  {
    TokenIsNotFound(files, order, token);
  }

  /** What the holder of a lease can do to it; every other lease stays as it is. */
  lemma HoldersChangeTheirLeaseOnly(s: State, id: Identity, expires: real, token: string, workspace: string, session: string)
    requires id in s.files && session != ""
    ensures var l := s.files[id];
            && Renewed(s, Some(id), expires) ==
               State(s.files[id := Lease(l.token, l.owner, expires, l.workspace, l.session)], s.workspaces)
            && Attached(s, Some(id), token, workspace, Some(session)) ==
               State(s.files[id := Lease(l.token, l.owner, l.expires, Some(workspace), Some(session))], s.workspaces[workspace := token])
            && Attached(s, Some(id), token, workspace, None) ==
               State(s.files[id := Lease(l.token, l.owner, l.expires, Some(workspace), l.session)], s.workspaces[workspace := token])
            && Released(s, Some(id)).files == s.files - {id}
            && (forall w :: w in Released(s, Some(id)).workspaces <==> w in s.workspaces && l.workspace != Some(w))
  {
  }
}
