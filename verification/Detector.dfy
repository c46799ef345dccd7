/**
 The stall detector's scan (`durable.py`): each pass takes the next watched tasks after a rotating
 cursor, and a pass that runs out of time leaves the cursor on the last task it handled.
 Task identifiers are positive numbers in their sort order; zero is the empty cursor.
 */
module Detector {
  import opened Options

  type TaskId = nat

  /** `ORDER BY task_id`, identifiers being unique. */
  predicate Sorted(ids: seq<TaskId>) {
    && (forall i :: 0 <= i < |ids| ==> ids[i] > 0)
    && (forall i, j :: 0 <= i < j < |ids| ==> ids[i] < ids[j])
  }

  /** The first index after the cursor, or the beginning. */
  function StartFrom(ids: seq<TaskId>, cursor: TaskId, from: nat): (start: nat)
    requires from <= |ids|
    ensures start <= |ids| && (|ids| > 0 ==> start < |ids|)
    decreases |ids| - from
  {
    if from == |ids| then 0
    else if ids[from] > cursor then from
    else StartFrom(ids, cursor, from + 1)
  }

  function Start(ids: seq<TaskId>, cursor: TaskId): (start: nat)
    ensures start <= |ids| && (|ids| > 0 ==> start < |ids|)
  {
    StartFrom(ids, cursor, 0)
  }

  function Rotated(ids: seq<TaskId>, start: nat): seq<TaskId>
    requires start <= |ids|
  {
    ids[start..] + ids[..start]
  }

  /** The tasks a pass is given, and the cursor it starts from. */
  function Chosen(ids: seq<TaskId>, cursor: TaskId, perPass: nat): seq<TaskId>
  {
    var rotated := Rotated(ids, Start(ids, cursor));
    if |rotated| <= perPass then rotated else rotated[..perPass]
  }

  /** What one pass handles and where it leaves the cursor; `cut` is the position after which time ran out. */
  function Pass(ids: seq<TaskId>, cursor: TaskId, perPass: nat, cut: Option<nat>): (seq<TaskId>, TaskId)
  {
    var chosen := Chosen(ids, cursor, perPass);
    if cut.Some? && cut.value < |chosen| then (chosen[..cut.value + 1], chosen[cut.value])
    else (chosen, if chosen != [] && |chosen| < |ids| then chosen[|chosen| - 1] else 0)
  }

  /** The first handled task after which the clock is read and found late; one that raised is not followed by a reading. */
  function FirstLate(n: nat, from: nat, raised: nat -> bool, late: nat -> bool): (cut: Option<nat>)
    requires from <= n
    ensures cut.Some? ==> from <= cut.value < n && !raised(cut.value) && late(cut.value)
    ensures forall i :: from <= i < (if cut.Some? then cut.value else n) ==> raised(i) || !late(i)
    decreases n - from
  {
    if from == n then None
    else if !raised(from) && late(from) then Some(from)
    else FirstLate(n, from + 1, raised, late)
  }

  class Reconciler {
    var cursor: TaskId
    const perPass: nat

    constructor (perPass: nat)
      ensures cursor == 0 && this.perPass == perPass
    {
      cursor := 0;
      this.perPass := perPass;
    }

    method FindStart(ids: seq<TaskId>) returns (start: nat)
      ensures start == Start(ids, cursor) && start <= |ids|
      ensures forall i :: 0 <= i < start ==> ids[i] <= cursor
    {
      start := 0;
      while start < |ids| && ids[start] <= cursor
        invariant start <= |ids| && StartFrom(ids, cursor, 0) == StartFrom(ids, cursor, start)
        invariant forall i :: 0 <= i < start ==> ids[i] <= cursor
      {
        start := start + 1;
      }
      if start == |ids| {
        start := 0;
      }
    }

    /** One pass: slice, move the cursor to its end, handle until late. */
    method DetectLiveness(ids: seq<TaskId>, raised: nat -> bool, late: nat -> bool) returns (handled: seq<TaskId>)
      modifies this
      ensures var n := |Chosen(ids, old(cursor), perPass)|;
              (handled, cursor) == Pass(ids, old(cursor), perPass, FirstLate(n, 0, raised, late))
    {
      var start := FindStart(ids);
      var rotated := ids[start..] + ids[..start];
      var complete := |rotated| <= perPass;
      var chosen := if complete then rotated else rotated[..perPass];
      cursor := if chosen != [] && !complete then chosen[|chosen| - 1] else 0;
      var i := 0;
      while i < |chosen|
        invariant 0 <= i <= |chosen|
        invariant FirstLate(|chosen|, 0, raised, late) == FirstLate(|chosen|, i, raised, late)
        invariant cursor == if chosen != [] && !complete then chosen[|chosen| - 1] else 0
      {
        if !raised(i) && late(i) {
          cursor := chosen[i];
          return chosen[..i + 1];
        }
        i := i + 1;
      }
      handled := chosen;
    }
  }

  // ---- passes over a fixed set ----

  /** After the task at index `i` the scan resumes at the next index, around the end. */
  lemma {:induction false} StartAfter(ids: seq<TaskId>, i: nat, from: nat)
    requires Sorted(ids) && i < |ids| && from <= i + 1
    ensures StartFrom(ids, ids[i], from) == if i + 1 < |ids| then i + 1 else 0
    decreases i + 1 - from
  {
    if from <= i {
      assert ids[from] <= ids[i];
      StartAfter(ids, i, from + 1);
    }
  }

  /** Counting around the end. */
  function Wrap(a: nat, n: nat): (r: nat)
    requires n > 0
    ensures r < n
  {
    a % n
  }

  function At(ids: seq<TaskId>, k: nat): TaskId
    requires |ids| > 0
  {
    ids[Wrap(k, |ids|)]
  }

  /** `trace` is the watched tasks in cyclic order from index `start`. */
  ghost predicate Cyclic(ids: seq<TaskId>, start: nat, trace: seq<TaskId>)
    requires |ids| > 0
  {
    forall i: nat :: i < |trace| ==> trace[i] == At(ids, start + i)
  }

  ghost predicate Covers(ids: seq<TaskId>, trace: seq<TaskId>) {
    forall i :: 0 <= i < |ids| ==> ids[i] in trace
  }

  lemma ModSmall(a: nat, n: nat)
    requires a < n
    ensures Wrap(a, n) == a
  {
  }

  lemma ModOnce(a: nat, n: nat)
    requires 0 < n <= a < 2 * n
    ensures Wrap(a, n) == a - n
  {
  }

  lemma ModAdd(a: nat, b: nat, n: nat)
    requires n > 0
    ensures Wrap(Wrap(a, n) + b, n) == Wrap(a + b, n)
  {
    var q := a / n;
    assert a == n * q + a % n;
    ModShift(a % n + b, q, n);
    assert a + b == a % n + b + n * q;
  }

  lemma {:induction false} ModShift(a: nat, q: nat, n: nat)
    requires n > 0
    ensures n * q >= 0 && (a + n * q) % n == a % n
    decreases q
  {
    if q > 0 {
      ModShift(a, q - 1, n);
      assert n * q == n * (q - 1) + n;
      ModStep(a + n * (q - 1), n);
    }
  }

  lemma ModStep(a: nat, n: nat)
    requires n > 0
    ensures (a + n) % n == a % n
  {
    var x, y := (a + n) / n, a / n;
    assert n * x + (a + n) % n == n * y + a % n + n;
    Quotients(x, y + 1, (a + n) % n, a % n, n);
  }

  lemma Quotients(x: int, y: int, r: nat, t: nat, n: nat)
    requires r < n && t < n && n * x + r == n * y + t
    ensures r == t
  {
    if x > y {
      Distribute(n, y, x - y - 1);
    } else if x < y {
      Distribute(n, x, y - x - 1);
    }
  }

  lemma Distribute(n: nat, y: int, d: nat)
    ensures n * (y + d + 1) >= n * y + n
  {
    assert n * (y + d + 1) == n * y + n * d + n;
    Product(n, d);
  }

  lemma Product(a: nat, b: nat)
    ensures a * b >= 0
  {
  }

  lemma RotatedIsCyclic(ids: seq<TaskId>, start: nat)
    requires |ids| > 0 && start < |ids|
    ensures |Rotated(ids, start)| == |ids| && Cyclic(ids, start, Rotated(ids, start))
  {
    hide Wrap;
    var n := |ids|;
    forall i: nat | i < n ensures Rotated(ids, start)[i] == At(ids, start + i) {
      if start + i < n {
        ModSmall(start + i, n);
      } else {
        ModOnce(start + i, n);
      }
    }
  }

  /** A cyclic stretch as long as the set reaches every task. */
  lemma LongEnoughCovers(ids: seq<TaskId>, start: nat, trace: seq<TaskId>)
    requires |ids| > 0 && Cyclic(ids, start, trace) && |trace| >= |ids|
    ensures Covers(ids, trace)
  {
    hide Wrap;
    var n := |ids|;
    forall i | 0 <= i < n ensures ids[i] in trace {
      var s := Wrap(start, n);
      var k := if i >= s then i - s else i + n - s;
      ModAdd(start, k, n);
      if i >= s {
        ModSmall(s + k, n);
      } else {
        ModOnce(s + k, n);
      }
      assert trace[k] == At(ids, start + k) == ids[i];
    }
  }

  lemma PassShape(ids: seq<TaskId>, cursor: TaskId, perPass: nat, cut: Option<nat>)
    requires |ids| > 0 && perPass > 0
    ensures var rotated := Rotated(ids, Start(ids, cursor));
            var (handled, next) := Pass(ids, cursor, perPass, cut);
            && |rotated| == |ids| && handled <= rotated && |handled| >= 1
            && (|handled| < |ids| ==> next == handled[|handled| - 1])
            && (cut.None? ==> |handled| == Each(|ids|, perPass))
  {
    hide StartFrom;
  }

  /** Where the scan resumes after `h` tasks from index `s`. */
  lemma Resumes(ids: seq<TaskId>, s: nat, h: nat)
    requires Sorted(ids) && |ids| > 0 && h > 0
    ensures Start(ids, At(ids, s + h - 1)) == Wrap(s + h, |ids|)
  {
    hide Wrap, StartFrom;
    var n := |ids|;
    var i := Wrap(s + h - 1, n);
    StartAfter(ids, i, 0);
    ModAdd(s + h - 1, 1, n);
    if i + 1 < n {
      ModSmall(i + 1, n);
    } else {
      ModOnce(i + 1, n);
    }
  }

  lemma CyclicPrefix(ids: seq<TaskId>, s: nat, a: seq<TaskId>, b: seq<TaskId>)
    requires |ids| > 0 && Cyclic(ids, s, b) && a <= b
    ensures Cyclic(ids, s, a)
    ensures a != [] ==> a[|a| - 1] == At(ids, s + |a| - 1)
  {
    hide At;
    assert forall i: nat :: i < |a| ==> a[i] == b[i];
  }

  /** One pass: a cyclic stretch of at least one task that the next pass continues, or everything. */
  lemma PassIsAStretch(ids: seq<TaskId>, cursor: TaskId, perPass: nat, cut: Option<nat>)
    requires Sorted(ids) && |ids| > 0 && perPass > 0
    ensures var s := Start(ids, cursor);
            var (handled, next) := Pass(ids, cursor, perPass, cut);
            && 1 <= |handled| <= |ids| && Cyclic(ids, s, handled)
            && (Covers(ids, handled) || Start(ids, next) == Wrap(s + |handled|, |ids|))
            && (cut.None? ==> |handled| == Each(|ids|, perPass))
  {
    hide Rotated, StartFrom, Pass, At, Cyclic, Covers, Sorted, Wrap, Each;
    var s := Start(ids, cursor);
    RotatedIsCyclic(ids, s);
    PassShape(ids, cursor, perPass, cut);
    var (handled, next) := Pass(ids, cursor, perPass, cut);
    CyclicPrefix(ids, s, handled, Rotated(ids, s));
    if |handled| == |ids| {
      LongEnoughCovers(ids, s, handled);
    } else {
      Resumes(ids, s, |handled|);
    }
  }

  function Each(n: nat, perPass: nat): nat {
    if n <= perPass then n else perPass
  }

  /** Consecutive passes: everything handled, in order, and the cursor left. */
  function Passes(ids: seq<TaskId>, cursor: TaskId, perPass: nat, cuts: seq<Option<nat>>): (seq<TaskId>, TaskId) {
    if cuts == [] then ([], cursor)
    else
      var (trace, at) := Passes(ids, cursor, perPass, cuts[..|cuts| - 1]);
      var (handled, next) := Pass(ids, at, perPass, cuts[|cuts| - 1]);
      (trace + handled, next)
  }

  lemma CyclicJoins(ids: seq<TaskId>, start: nat, a: seq<TaskId>, b: seq<TaskId>)
    requires |ids| > 0 && Cyclic(ids, start, a) && Cyclic(ids, Wrap(start + |a|, |ids|), b)
    ensures Cyclic(ids, start, a + b)
  {
    hide Wrap;
    var n := |ids|;
    forall i: nat | i < |a + b| ensures (a + b)[i] == At(ids, start + i) {
      if i >= |a| {
        ModAdd(start + |a|, i - |a|, n);
        assert (a + b)[i] == b[i - |a|] == At(ids, Wrap(start + |a|, n) + (i - |a|));
      } else {
        assert (a + b)[i] == a[i];
      }
    }
  }

  /** What a run of passes has come to: everything, or one cyclic stretch the next pass continues. */
  ghost predicate Progress(ids: seq<TaskId>, start: nat, trace: seq<TaskId>, cursor: TaskId)
    requires |ids| > 0
  {
    Covers(ids, trace) || (Cyclic(ids, start, trace) && Start(ids, cursor) == Wrap(start + |trace|, |ids|))
  }

  lemma ProgressContinues(ids: seq<TaskId>, start: nat, trace: seq<TaskId>, cursor: TaskId, handled: seq<TaskId>, next: TaskId)
    requires |ids| > 0 && Progress(ids, start, trace, cursor)
    requires Cyclic(ids, Start(ids, cursor), handled)
    requires Covers(ids, handled) || Start(ids, next) == Wrap(Start(ids, cursor) + |handled|, |ids|)
    ensures Progress(ids, start, trace + handled, next)
  {
    hide Start, At, Cyclic, Wrap;
    if Covers(ids, trace) || Covers(ids, handled) {
      assert Covers(ids, trace + handled);
    } else {
      hide Covers;
      CyclicJoins(ids, start, trace, handled);
      ModAdd(start + |trace|, |handled|, |ids|);
    }
  }

  lemma {:induction false} PassesProgress(ids: seq<TaskId>, cursor: TaskId, perPass: nat, cuts: seq<Option<nat>>)
    requires Sorted(ids) && |ids| > 0 && perPass > 0
    ensures var (trace, at) := Passes(ids, cursor, perPass, cuts);
            && |trace| >= |cuts| && Progress(ids, Start(ids, cursor), trace, at)
    decreases |cuts|
  {
    hide Progress, Pass, Sorted, Cyclic, Covers, Wrap;
    if cuts == [] {
      NothingYet(ids, cursor);
    } else {
      var before := cuts[..|cuts| - 1];
      PassesProgress(ids, cursor, perPass, before);
      var (trace, at) := Passes(ids, cursor, perPass, before);
      PassIsAStretch(ids, at, perPass, cuts[|cuts| - 1]);
      var (handled, next) := Pass(ids, at, perPass, cuts[|cuts| - 1]);
      ProgressContinues(ids, Start(ids, cursor), trace, at, handled, next);
    }
  }

  lemma NothingYet(ids: seq<TaskId>, cursor: TaskId)
    requires |ids| > 0
    ensures Progress(ids, Start(ids, cursor), [], cursor)
  {
    ModSmall(Start(ids, cursor), |ids|);
  }

  /** A run that has handled as many tasks as there are, counting repeats, has handled each. */
  lemma LongRunsCover(ids: seq<TaskId>, cursor: TaskId, perPass: nat, cuts: seq<Option<nat>>)
    requires Sorted(ids) && perPass > 0 && |Passes(ids, cursor, perPass, cuts).0| >= |ids|
    ensures Covers(ids, Passes(ids, cursor, perPass, cuts).0)
  {
    if |ids| > 0 {
      hide Passes, Sorted, Start, Wrap, At;
      PassesProgress(ids, cursor, perPass, cuts);
      var (trace, at) := Passes(ids, cursor, perPass, cuts);
      hide Cyclic, Covers;
      if Cyclic(ids, Start(ids, cursor), trace) {
        LongEnoughCovers(ids, Start(ids, cursor), trace);
      }
    }
  }

  /**
   Fairness under cuts: from any cursor, in any run of as many passes as there are watched tasks,
   every task is handled, wherever the deadline cuts each pass.
   */
  lemma EveryTaskWithinAsManyPasses(ids: seq<TaskId>, cursor: TaskId, perPass: nat, cuts: seq<Option<nat>>)
    requires Sorted(ids) && perPass > 0 && |cuts| >= |ids|
    ensures Covers(ids, Passes(ids, cursor, perPass, cuts).0)
  {
    if |ids| > 0 {
      hide Passes, Sorted, Progress, Covers, Start;
      PassesProgress(ids, cursor, perPass, cuts);
      LongRunsCover(ids, cursor, perPass, cuts);
    }
  }

  /** ceil(n / perPass). */
  function Rounds(n: nat, perPass: nat): nat
    requires perPass > 0
  {
    (n + perPass - 1) / perPass
  }

  /** What `m` uncut passes handle. */
  function Total(m: nat, n: nat, perPass: nat): nat {
    Product(m, Each(n, perPass));
    m * Each(n, perPass)
  }

  lemma TotalNext(m: nat, n: nat, perPass: nat)
    ensures Total(m + 1, n, perPass) == Total(m, n, perPass) + Each(n, perPass)
  {
    hide Each;
  }

  lemma {:induction false} UncutPassesAreFull(ids: seq<TaskId>, cursor: TaskId, perPass: nat, cuts: seq<Option<nat>>)
    requires Sorted(ids) && |ids| > 0 && perPass > 0
    requires forall i :: 0 <= i < |cuts| ==> cuts[i].None?
    ensures |Passes(ids, cursor, perPass, cuts).0| == Total(|cuts|, |ids|, perPass)
    decreases |cuts|
  {
    hide Pass, Sorted, Each, Start, Cyclic, Covers, Wrap;
    if cuts == [] {
      assert Total(0, |ids|, perPass) == 0;
    }
    hide Total;
    if cuts != [] {
      var before := cuts[..|cuts| - 1];
      UncutPassesAreFull(ids, cursor, perPass, before);
      var at := Passes(ids, cursor, perPass, before).1;
      PassIsAStretch(ids, at, perPass, cuts[|cuts| - 1]);
      assert Total(|cuts|, |ids|, perPass) == Total(|before|, |ids|, perPass) + Each(|ids|, perPass) by {
        TotalNext(|before|, |ids|, perPass);
      }
    }
  }

  /** Fairness without cuts: every task is handled in any run of ceil(n / perPass) passes. */
  lemma EveryTaskWithinOneRound(ids: seq<TaskId>, cursor: TaskId, perPass: nat, cuts: seq<Option<nat>>)
    requires Sorted(ids) && perPass > 0 && |cuts| >= Rounds(|ids|, perPass)
    requires forall i :: 0 <= i < |cuts| ==> cuts[i].None?
    ensures Covers(ids, Passes(ids, cursor, perPass, cuts).0)
  {
    if |ids| > 0 {
      hide Passes, Sorted, Covers, Each, Total, Rounds;
      UncutPassesAreFull(ids, cursor, perPass, cuts);
      RoundIsEnough(|ids|, perPass, |cuts|);
      LongRunsCover(ids, cursor, perPass, cuts);
    }
  }

  lemma RoundIsEnough(n: nat, perPass: nat, m: nat)
    requires n > 0 && perPass > 0 && m >= Rounds(n, perPass)
    ensures Total(m, n, perPass) >= n
  {
    var q := Rounds(n, perPass);
    assert perPass * q > n - 1 by {
      assert n + perPass - 1 == perPass * q + (n + perPass - 1) % perPass;
    }
    PositiveFactor(perPass, q);
    Scale(q, m, Each(n, perPass));
    if n <= perPass {
      Scale(1, m, n);
    }
  }

  lemma PositiveFactor(a: nat, b: int)
    requires a * b > 0
    ensures b > 0
  {
  }

  lemma Scale(a: nat, b: nat, c: nat)
    requires a <= b
    ensures a * c <= b * c
  {
    assert b * c == a * c + (b - a) * c;
  }

  /** `n` passes, each cut after its first task. */
  function CutShort(n: nat): seq<Option<nat>> {
    if n == 0 then [] else CutShort(n - 1) + [Some(0)]
  }

  lemma {:induction false} CutShortLength(n: nat)
    ensures |CutShort(n)| == n
  {
    if n > 0 {
      CutShortLength(n - 1);
    }
  }

  lemma PassesSnoc(ids: seq<TaskId>, cursor: TaskId, perPass: nat, cuts: seq<Option<nat>>, cut: Option<nat>)
    ensures var (trace, at) := Passes(ids, cursor, perPass, cuts);
            var (handled, next) := Pass(ids, at, perPass, cut);
            Passes(ids, cursor, perPass, cuts + [cut]) == (trace + handled, next)
  {
    hide Pass;
    assert (cuts + [cut])[..|cuts|] == cuts;
  }

  lemma {:induction false} CutPassesGoOneByOne(ids: seq<TaskId>, perPass: nat, n: nat)
    requires Sorted(ids) && perPass > 0 && n <= |ids|
    ensures Passes(ids, 0, perPass, CutShort(n)) == (ids[..n], if n == 0 then 0 else ids[n - 1])
  {
    hide Pass, Start, Sorted, StartFrom, Chosen, Rotated;
    if n == 0 {
      assert ids[..0] == [];
    } else {
      hide Passes;
      assert CutShort(n) == CutShort(n - 1) + [Some(0)];
      hide CutShort;
      var at := if n == 1 then 0 else ids[n - 2];
      CutPassesGoOneByOne(ids, perPass, n - 1);
      PassesSnoc(ids, 0, perPass, CutShort(n - 1), Some(0));
      StartsNext(ids, n - 1);
      CutPass(ids, at, perPass, n - 1);
      assert ids[..n - 1] + [ids[n - 1]] == ids[..n];
    }
  }

  lemma StartsNext(ids: seq<TaskId>, i: nat)
    requires Sorted(ids) && i < |ids|
    ensures Start(ids, if i == 0 then 0 else ids[i - 1]) == i
  {
    if i > 0 {
      StartAfter(ids, i - 1, 0);
    }
  }

  lemma CutPass(ids: seq<TaskId>, cursor: TaskId, perPass: nat, i: nat)
    requires i < |ids| && perPass > 0 && Start(ids, cursor) == i
    ensures Pass(ids, cursor, perPass, Some(0)) == ([ids[i]], ids[i])
  {
    hide StartFrom;
    assert Chosen(ids, cursor, perPass)[..1] == [ids[i]];
  }

  /** No fewer passes would do: for any set, all passes but one, each cut after a task, leave the last task unhandled. */
  lemma FewerPassesAreNotEnough(ids: seq<TaskId>, perPass: nat)
    requires Sorted(ids) && ids != [] && perPass > 0
    ensures |CutShort(|ids| - 1)| == |ids| - 1
    ensures ids[|ids| - 1] !in Passes(ids, 0, perPass, CutShort(|ids| - 1)).0
    ensures !Covers(ids, Passes(ids, 0, perPass, CutShort(|ids| - 1)).0)
  {
    hide Passes;
    CutShortLength(|ids| - 1);
    CutPassesGoOneByOne(ids, perPass, |ids| - 1);
  }
}
