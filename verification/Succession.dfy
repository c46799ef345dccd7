/**
 Terminal ownership (`succession.py`): a session is retired once and for ever, may be given one
 successor, and the successor links never form a cycle.
 */
module Succession {
  import opened Options

  type SessionId = string

  datatype Ending = Retired | Superseded

  datatype Ownership = Ownership(state: Ending, reason: string, logicalKey: Option<string>, successor: Option<SessionId>)

  /** The ownership table: a session in it is quarantined. */
  type Records = map<SessionId, Ownership>

  datatype Link = Linked | AlreadyLinked | Missing | Taken | Cycle | OwnSuccessor

  function Next(recs: Records, s: SessionId): Option<SessionId> {
    if s in recs then recs[s].successor else None
  }

  /** The session `n` links after `s`, if the chain is that long. */
  function Walk(recs: Records, s: SessionId, n: nat): Option<SessionId> {
    if n == 0 then Some(s)
    else
      match Walk(recs, s, n - 1)
      case None => None
      case Some(t) => Next(recs, t)
  }

  ghost predicate Reaches(recs: Records, s: SessionId, t: SessionId) {
    exists n: nat :: Walk(recs, s, n) == Some(t)
  }

  ghost predicate Ends(recs: Records, s: SessionId) {
    exists n: nat :: Walk(recs, s, n) == None
  }

  /** Every chain ends: the successor links are a forest. */
  ghost predicate Forest(recs: Records) {
    forall s :: Ends(recs, s)
  }

  /** `t` is where the chain of `s` stops. */
  ghost predicate EndOf(recs: Records, s: SessionId, t: SessionId) {
    Reaches(recs, s, t) && Next(recs, t).None?
  }

  /** `s` leads into a cycle of links. */
  ghost predicate Looping(recs: Records, s: SessionId) {
    exists t, n: nat :: Reaches(recs, s, t) && n > 0 && Walk(recs, t, n) == Some(t)
  }

  // ---- walking ----

  lemma {:induction false} WalkAdd(recs: Records, s: SessionId, m: nat, n: nat)
    ensures Walk(recs, s, m + n) == if Walk(recs, s, m).Some? then Walk(recs, Walk(recs, s, m).value, n) else None
  {
    if n > 0 {
      WalkAdd(recs, s, m, n - 1);
    }
  }

  lemma WalkStops(recs: Records, s: SessionId, m: nat, n: nat)
    requires m <= n && Walk(recs, s, m).None?
    ensures Walk(recs, s, n).None?
  {
    WalkAdd(recs, s, m, n - m);
  }

  /** A walk that returns to where it was never ends. */
  lemma {:induction false} LoopNeverEnds(recs: Records, s: SessionId, period: nat, m: nat)
    requires period > 0 && Walk(recs, s, period) == Some(s)
    ensures Walk(recs, s, m).Some?
    decreases m
  {
    if m < period {
      if Walk(recs, s, m).None? {
        WalkStops(recs, s, m, period);
      }
    } else {
      LoopNeverEnds(recs, s, period, m - period);
      WalkAdd(recs, s, period, m - period);
    }
  }

  /** In a forest nothing is its own successor, directly or not. */
  lemma ForestHasNoCycle(recs: Records, s: SessionId, n: nat)
    requires Forest(recs) && n > 0
    ensures Walk(recs, s, n) != Some(s)
  {
    if Walk(recs, s, n) == Some(s) {
      assert Ends(recs, s);
      var m: nat :| Walk(recs, s, m) == None;
      LoopNeverEnds(recs, s, n, m);
    }
  }

  lemma ForestDoesNotLoop(recs: Records, s: SessionId)
    requires Forest(recs)
    ensures !Looping(recs, s)
  {
    forall t, n: nat | n > 0 ensures Walk(recs, t, n) != Some(t) {
      ForestHasNoCycle(recs, t, n);
    }
  }

  lemma {:induction false} LastOfWalk(recs: Records, s: SessionId, n: nat) returns (t: SessionId)
    requires Walk(recs, s, n).None?
    ensures EndOf(recs, s, t)
  {
    if Walk(recs, s, n - 1).None? {
      t := LastOfWalk(recs, s, n - 1);
    } else {
      t := Walk(recs, s, n - 1).value;
      assert Reaches(recs, s, t);
    }
  }

  lemma EndIsUnique(recs: Records, s: SessionId, t: SessionId, u: SessionId)
    requires EndOf(recs, s, t) && EndOf(recs, s, u)
    ensures t == u
  {
    var m: nat :| Walk(recs, s, m) == Some(t);
    var n: nat :| Walk(recs, s, n) == Some(u);
    if m < n {
      EndStopsWalk(recs, s, m, n);
    } else if n < m {
      EndStopsWalk(recs, s, n, m);
    }
  }

  lemma EndStopsWalk(recs: Records, s: SessionId, m: nat, n: nat)
    requires m < n && Walk(recs, s, m).Some? && Next(recs, Walk(recs, s, m).value).None?
    ensures Walk(recs, s, n).None?
  {
    assert Walk(recs, s, m + 1).None?;
    WalkStops(recs, s, m + 1, n);
  }

  // ---- the store ----

  function RetiredIn(recs: Records, s: SessionId, state: Ending, reason: string, key: Option<string>): Records {
    if s in recs then recs else recs[s := Ownership(state, reason, key, None)]
  }

  /** What `link_successor` answers. */
  ghost function LinkAnswer(recs: Records, source: SessionId, successor: SessionId): Link {
    if source == successor then OwnSuccessor
    else if source !in recs then Missing
    else if recs[source].successor == Some(successor) then AlreadyLinked
    else if recs[source].successor.Some? then Taken
    else if Reaches(recs, successor, source) || Looping(recs, successor) then Cycle
    else Linked
  }

  function WithSuccessor(recs: Records, source: SessionId, successor: SessionId): Records
    requires source in recs
  {
    recs[source := recs[source].(successor := Some(successor))]
  }

  class OwnershipStore {
    var recs: Records

    constructor ()
      ensures recs == map[]
    {
      recs := map[];
    }

    /** The first terminal record wins for ever. */
    method Retire(s: SessionId, state: Ending, reason: string, key: Option<string>) returns (record: Ownership)
      modifies this
      ensures recs == RetiredIn(old(recs), s, state, reason, key)
      ensures s in recs && record == recs[s]
    {
      if s in recs {
        return recs[s];
      }
      recs := recs[s := Ownership(state, reason, key, None)];
      record := recs[s];
    }

    method LinkSuccessor(source: SessionId, successor: SessionId) returns (r: Link)
      modifies this
      ensures r == LinkAnswer(old(recs), source, successor)
      ensures recs == if r.Linked? then WithSuccessor(old(recs), source, successor) else old(recs)
    {
      if source == successor {
        return OwnSuccessor;
      }
      if source !in recs {
        return Missing;
      }
      if recs[source].successor == Some(successor) {
        return AlreadyLinked;
      }
      if recs[source].successor.Some? {
        return Taken;
      }
      var cyclic := WouldCycle(source, successor);
      if cyclic {
        return Cycle;
      }
      recs := recs[source := recs[source].(successor := Some(successor))];
      r := Linked;
    }

    /** The walk down the chain of the new successor. */
    method WouldCycle(source: SessionId, successor: SessionId) returns (cyclic: bool)
      requires source != successor && source in recs && recs[source].successor.None?
      ensures cyclic <==> Reaches(recs, successor, source) || Looping(recs, successor)
    {
      var seen := {source};
      var current := Some(successor);
      ghost var k: nat := 0;
      while current.Some?
        invariant current == Walk(recs, successor, k)
        invariant Trail(recs, source, successor, k, seen)
        decreases recs.Keys - seen, current.Some?
      {
        if current.value in seen {
          SeenAgain(recs, source, successor, k, seen);
          return true;
        }
        TrailGrows(recs, source, successor, k, seen);
        seen := seen + {current.value};
        current := if current.value in recs then recs[current.value].successor else None;
        k := k + 1;
      }
      EndedClear(recs, source, successor, k, seen);
      cyclic := false;
    }

    /** `resolve_live_successor`. */
    method ResolveLiveSuccessor(s: SessionId) returns (r: Option<SessionId>)
      ensures r.Some? ==> EndOf(recs, s, r.value) && r.value !in recs
      ensures r.None? ==> Looping(recs, s) || exists t :: EndOf(recs, s, t) && t in recs
    {
      assert Walk(recs, s, 0) == Some(s);
      if s !in recs {
        return Some(s);
      }
      var seen := {s};
      var at := s;
      ghost var k: nat := 0;
      while true
        invariant at in recs && Walk(recs, s, k) == Some(at)
        invariant Steps(recs, s, k, seen)
        decreases recs.Keys - seen
      {
        var successor := recs[at].successor;
        if successor.None? {
          assert EndOf(recs, s, at);
          return None;
        }
        assert Walk(recs, s, k + 1) == successor;
        if successor.value in seen {
          StepSeenAgain(recs, s, k, seen);
          return None;
        }
        if successor.value !in recs {
          assert EndOf(recs, s, successor.value);
          return Some(successor.value);
        }
        StepsGrow(recs, s, k, seen);
        seen := seen + {successor.value};
        at := successor.value;
        k := k + 1;
      }
    }
  }

  /** `seen` is the chain of `s` up to and including step `k`. */
  ghost predicate Steps(recs: Records, s: SessionId, k: nat, seen: set<SessionId>) {
    && (forall t :: t in seen ==> exists i: nat :: i <= k && Walk(recs, s, i) == Some(t))
    && (forall i: nat :: i <= k ==> Walk(recs, s, i).Some? && Walk(recs, s, i).value in seen)
  }

  lemma StepsGrow(recs: Records, s: SessionId, k: nat, seen: set<SessionId>)
    requires Steps(recs, s, k, seen) && Walk(recs, s, k + 1).Some?
    ensures Steps(recs, s, k + 1, seen + {Walk(recs, s, k + 1).value})
  {
    forall t | t in seen ensures exists i: nat :: i <= k + 1 && Walk(recs, s, i) == Some(t) {
      var i: nat :| i <= k && Walk(recs, s, i) == Some(t);
    }
    forall i: nat | i <= k + 1
      ensures Walk(recs, s, i).Some? && Walk(recs, s, i).value in seen + {Walk(recs, s, k + 1).value}
    {
      if i <= k {
        assert Walk(recs, s, i).value in seen;
      }
    }
  }

  lemma StepSeenAgain(recs: Records, s: SessionId, k: nat, seen: set<SessionId>)
    requires Steps(recs, s, k, seen) && Walk(recs, s, k + 1).Some? && Walk(recs, s, k + 1).value in seen
    ensures Looping(recs, s)
  {
    var t := Walk(recs, s, k + 1).value;
    var i: nat :| i <= k && Walk(recs, s, i) == Some(t);
    WalkAdd(recs, s, i, k + 1 - i);
    assert Reaches(recs, s, t);
    assert Walk(recs, t, k + 1 - i) == Some(t);
  }

  /** `seen` is the source and the chain of the successor before step `k`. */
  ghost predicate Trail(recs: Records, source: SessionId, successor: SessionId, k: nat, seen: set<SessionId>) {
    && source in seen
    && (forall t :: t in seen && t != source ==> exists i: nat :: i < k && Walk(recs, successor, i) == Some(t))
    && (forall i: nat :: i < k ==> Walk(recs, successor, i).Some? && Walk(recs, successor, i).value != source)
  }

  lemma TrailGrows(recs: Records, source: SessionId, successor: SessionId, k: nat, seen: set<SessionId>)
    requires Trail(recs, source, successor, k, seen)
    requires Walk(recs, successor, k).Some? && Walk(recs, successor, k).value !in seen
    ensures Trail(recs, source, successor, k + 1, seen + {Walk(recs, successor, k).value})
  {
    forall t | t in seen && t != source ensures exists i: nat :: i < k + 1 && Walk(recs, successor, i) == Some(t) {
      var i: nat :| i < k && Walk(recs, successor, i) == Some(t);
    }
  }

  lemma SeenAgain(recs: Records, source: SessionId, successor: SessionId, k: nat, seen: set<SessionId>)
    requires Trail(recs, source, successor, k, seen)
    requires Walk(recs, successor, k).Some? && Walk(recs, successor, k).value in seen
    ensures Reaches(recs, successor, source) || Looping(recs, successor)
  {
    var t := Walk(recs, successor, k).value;
    if t != source {
      var i: nat :| i < k && Walk(recs, successor, i) == Some(t);
      WalkAdd(recs, successor, i, k - i);
      assert Reaches(recs, successor, t);
      assert Walk(recs, t, k - i) == Some(t);
    }
  }

  lemma EndedClear(recs: Records, source: SessionId, successor: SessionId, k: nat, seen: set<SessionId>)
    requires Trail(recs, source, successor, k, seen) && Walk(recs, successor, k).None?
    ensures !Reaches(recs, successor, source) && !Looping(recs, successor)
  {
    forall n: nat ensures Walk(recs, successor, n) != Some(source) {
      if n >= k {
        WalkStops(recs, successor, k, n);
      }
    }
    forall t, n: nat | Reaches(recs, successor, t) && n > 0 ensures Walk(recs, t, n) != Some(t) {
      var i: nat :| Walk(recs, successor, i) == Some(t);
      if Walk(recs, t, n) == Some(t) {
        LoopNeverEnds(recs, t, n, k);
        WalkAdd(recs, successor, i, k);
        WalkStops(recs, successor, k, i + k);
      }
    }
  }

  // ---- runs ----

  datatype Op = Retire(s: SessionId, state: Ending, reason: string, key: Option<string>) | LinkTo(source: SessionId, successor: SessionId)

  ghost function Apply(recs: Records, op: Op): Records {
    match op
    case Retire(s, state, reason, key) => RetiredIn(recs, s, state, reason, key)
    case LinkTo(source, successor) =>
      if LinkAnswer(recs, source, successor).Linked? then WithSuccessor(recs, source, successor) else recs
  }

  ghost function Run(recs: Records, ops: seq<Op>): Records {
    if ops == [] then recs else Apply(Run(recs, ops[..|ops| - 1]), ops[|ops| - 1])
  }

  /** Records only gain: nothing of a record changes but a missing successor. */
  ghost predicate Kept(a: Records, b: Records) {
    forall s :: s in a ==> s in b && b[s].(successor := None) == a[s].(successor := None)
                           && (a[s].successor.Some? ==> b[s].successor == a[s].successor)
  }

  /** A new record has no successor, so no chain changes. */
  lemma {:induction false} RetireKeepsWalks(recs: Records, s: SessionId, state: Ending, reason: string, key: Option<string>, t: SessionId, n: nat)
    ensures Walk(RetiredIn(recs, s, state, reason, key), t, n) == Walk(recs, t, n)
  {
    if n > 0 {
      RetireKeepsWalks(recs, s, state, reason, key, t, n - 1);
    }
  }

  /** Until it meets the source, a chain is what it was before the link. */
  lemma {:induction false} LinkKeepsWalks(recs: Records, source: SessionId, successor: SessionId, t: SessionId, n: nat)
    requires source in recs && recs[source].successor.None?
    requires forall i: nat :: i < n ==> Walk(recs, t, i) != Some(source)
    ensures Walk(WithSuccessor(recs, source, successor), t, n) == Walk(recs, t, n)
  {
    if n > 0 {
      LinkKeepsWalks(recs, source, successor, t, n - 1);
      assert Walk(recs, t, n - 1) != Some(source);
    }
  }

  lemma LinkKeepsEnds(recs: Records, source: SessionId, successor: SessionId, t: SessionId)
    requires Forest(recs) && source in recs && recs[source].successor.None? && !Reaches(recs, successor, source)
    ensures Ends(WithSuccessor(recs, source, successor), t)
  {
    var after := WithSuccessor(recs, source, successor);
    assert Ends(recs, successor) && Ends(recs, t);
    var m: nat :| Walk(recs, successor, m) == None;
    LinkKeepsWalks(recs, source, successor, successor, m);
    if Reaches(recs, t, source) {
      var i := FirstVisit(recs, t, source);
      LinkKeepsWalks(recs, source, successor, t, i);
      assert Walk(after, t, i + 1) == Some(successor);
      WalkAdd(after, t, i + 1, m);
      assert Walk(after, t, i + 1 + m) == None;
    } else {
      var n: nat :| Walk(recs, t, n) == None;
      LinkKeepsWalks(recs, source, successor, t, n);
    }
  }

  lemma FirstVisit(recs: Records, t: SessionId, source: SessionId) returns (i: nat)
    requires Reaches(recs, t, source)
    ensures Walk(recs, t, i) == Some(source) && forall j: nat :: j < i ==> Walk(recs, t, j) != Some(source)
  {
    i := 0;
    var n: nat :| Walk(recs, t, n) == Some(source);
    while Walk(recs, t, i) != Some(source)
      invariant i <= n && forall j: nat :: j < i ==> Walk(recs, t, j) != Some(source)
      decreases n - i
    {
      i := i + 1;
    }
  }

  lemma StepKeeps(recs: Records, op: Op)
    requires Forest(recs)
    ensures Forest(Apply(recs, op)) && Kept(recs, Apply(recs, op))
  {
    match op
    case Retire(s, state, reason, key) =>
      forall t ensures Ends(Apply(recs, op), t) {
        assert Ends(recs, t);
        var n: nat :| Walk(recs, t, n) == None;
        RetireKeepsWalks(recs, s, state, reason, key, t, n);
      }
    case LinkTo(source, successor) =>
      if LinkAnswer(recs, source, successor).Linked? {
        forall t ensures Ends(Apply(recs, op), t) {
          LinkKeepsEnds(recs, source, successor, t);
        }
      }
  }

  /** Over every run the links stay a forest, a record is never rewritten, and a successor is written once. */
  lemma {:induction false} SuccessionIsAForest(recs: Records, ops: seq<Op>)
    requires Forest(recs)
    ensures Forest(Run(recs, ops)) && Kept(recs, Run(recs, ops))
    decreases |ops|
  {
    hide Forest, Apply;
    if ops != [] {
      SuccessionIsAForest(recs, ops[..|ops| - 1]);
      StepKeeps(Run(recs, ops[..|ops| - 1]), ops[|ops| - 1]);
    }
  }

  lemma EmptyIsAForest()
    ensures Forest(map[])
  {
    forall s ensures Ends(map[], s) {
      assert Walk(map[], s, 0) == Some(s);
      assert Walk(map[], s, 1) == None;
    }
  }

  /**
   In every reachable store each chain has exactly one end, and a resolver that answers as
   `ResolveLiveSuccessor` promises answers that end if it is not quarantined, and nothing if it is.
   */
  lemma ResolverFindsTheEnd(ops: seq<Op>, s: SessionId, r: Option<SessionId>) returns (end: SessionId)
    requires var recs := Run(map[], ops);
             && (r.Some? ==> EndOf(recs, s, r.value) && r.value !in recs)
             && (r.None? ==> Looping(recs, s) || exists t :: EndOf(recs, s, t) && t in recs)
    ensures var recs := Run(map[], ops);
            && EndOf(recs, s, end) && (forall t :: EndOf(recs, s, t) ==> t == end)
            && r == if end in recs then None else Some(end)
  {
    EmptyIsAForest();
    SuccessionIsAForest(map[], ops);
    hide Run;
    var recs := Run(map[], ops);
    assert Ends(recs, s);
    var n: nat :| Walk(recs, s, n) == None;
    end := LastOfWalk(recs, s, n);
    ForestDoesNotLoop(recs, s);
    hide EndOf, Looping, Forest;
    forall t | EndOf(recs, s, t) ensures t == end {
      EndIsUnique(recs, s, t, end);
    }
  }

  /** In a reachable store a link to a new successor is refused for a cycle exactly when it would close one. */
  lemma CycleMeansReachingBack(ops: seq<Op>, source: SessionId, successor: SessionId)
    requires var recs := Run(map[], ops); source in recs && recs[source].successor.None? && source != successor
    ensures LinkAnswer(Run(map[], ops), source, successor).Cycle? <==> Reaches(Run(map[], ops), successor, source)
  {
    EmptyIsAForest();
    SuccessionIsAForest(map[], ops);
    hide Run;
    ForestDoesNotLoop(Run(map[], ops), successor);
  }

  /** The first retirement writes the record as asked, and no other record. */
  lemma FirstRetirementIsRecorded(recs: Records, s: SessionId, state: Ending, reason: string, key: Option<string>)
    requires s !in recs
    ensures Apply(recs, Retire(s, state, reason, key)) == recs[s := Ownership(state, reason, key, None)]
  {
  }

  /**
   In a reachable store a link takes, or is there already, exactly when the source is retired, is
   not the successor, and has this successor or none whose chain leads back; other records stay.
   */
  lemma LinksTakeExactlyWhenTheyCan(ops: seq<Op>, source: SessionId, successor: SessionId)
    ensures var recs := Run(map[], ops);
            var after := Apply(recs, LinkTo(source, successor));
            && (Next(after, source) == Some(successor) <==>
                  source in recs && (Next(recs, source) == Some(successor)
                                     || (source != successor && Next(recs, source) == None && !Reaches(recs, successor, source))))
            && after.Keys == recs.Keys && forall s :: s in recs && s != source ==> after[s] == recs[s]
  {
    EmptyIsAForest();
    SuccessionIsAForest(map[], ops);
    hide Run;
    var recs := Run(map[], ops);
    ForestDoesNotLoop(recs, successor);
    ForestHasNoCycle(recs, source, 1);
    assert Walk(recs, source, 1) == Next(recs, source) by {
      assert Walk(recs, source, 0) == Some(source);
    }
    hide Reaches, Looping, Forest;
  }
}
