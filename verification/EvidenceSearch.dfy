/**
 The windowed search index over confirmed evidence bytes (`evidence_index.py`). A frame is
 indexed by a window that reaches one maximum query behind it and is trimmed to whole
 characters; a search keeps, per frame, the first match that ends inside the frame. The
 reference is naive substring search over all the source bytes.
 */
module EvidenceSearch {
  import opened Options
  import opened Sequences
  import opened Utf8

  const MAX_QUERY_CHARACTERS: nat := 256
  const OVERLAP_BYTES: nat := MAX_QUERY_CHARACTERS * 4

  // ---- one window ----

  /** A window's first byte, its bytes, and the text they decode to. */
  datatype Window = Window(start: nat, body: seq<Byte>, text: seq<Rune>)

  /** How many of at most three leading bytes continue an earlier character. */
  function Skipped(body: seq<Byte>, limit: nat): (n: nat)
    ensures n <= limit && n <= |body|
    ensures forall i :: 0 <= i < n ==> Continuation(body[i])
    ensures n < limit && n < |body| ==> !Continuation(body[n])
  {
    if limit == 0 || body == [] || !Continuation(body[0]) then 0
    else 1 + Skipped(body[1..], limit - 1)
  }

  /** `None` is the decoder's refusal of bytes that are not UTF-8. */
  function WindowOf(start: nat, body: seq<Byte>): Option<Window> {
    var skipped := if start == 0 then 0 else Skipped(body, 3);
    match Decode(body[skipped..])
    case Invalid => None
    case Text(text, pending) =>
      Some(Window(start + skipped, body[skipped..|body| - |pending|], text))
  }

  method Utf8Window(start: nat, body: seq<Byte>) returns (w: Option<Window>)
    ensures w == WindowOf(start, body)
  {
    hide EncodeAll, Decode;
    var skipped := 0;
    if start > 0 {
      while skipped < Min(3, |body|) && Continuation(body[skipped])
        invariant skipped <= Min(3, |body|)
        invariant forall i :: 0 <= i < skipped ==> Continuation(body[i])
      {
        skipped := skipped + 1;
      }
      SkippedIsUnique(body, 3, skipped);
    }
    match Decode(body[skipped..]) {
      case Invalid => w := None;
      case Text(text, pending) =>
        var end := |body| - |pending|;
        w := Some(Window(start + skipped, body[skipped..end], text));
    }
  }

  function Min(a: int, b: int): int {
    if a < b then a else b
  }

  function Max(a: int, b: int): int {
    if a < b then b else a
  }

  lemma {:induction false} SkippedIsUnique(body: seq<Byte>, limit: nat, n: nat)
    requires n <= limit && n <= |body|
    requires forall i :: 0 <= i < n ==> Continuation(body[i])
    requires n < limit && n < |body| ==> !Continuation(body[n])
    ensures Skipped(body, limit) == n
  {
    if n > 0 { SkippedIsUnique(body[1..], limit - 1, n - 1); }
  }

  /**
   A window cut anywhere out of a valid source holds exactly the whole characters between
   its ends: it starts at the first boundary not before `a` and stops at the last one not
   after `b`.
   */
  lemma WindowText(cs: seq<Rune>, a: nat, b: nat) returns (i: nat, j: nat)
    requires a <= b <= |EncodeAll(cs)| && (a == 0 || a + 3 <= b)
    ensures i <= j <= |cs| && a <= Offset(cs, i) && Offset(cs, j) <= b
    ensures i > 0 ==> Offset(cs, i - 1) < a
    ensures j < |cs| ==> b < Offset(cs, j + 1)
    ensures Offset(cs, i) <= Offset(cs, j) <= |EncodeAll(cs)|
    ensures WindowOf(a, EncodeAll(cs)[a..b]) ==
            Some(Window(Offset(cs, i), EncodeAll(cs)[Offset(cs, i)..Offset(cs, j)], cs[i..j]))
  {
    hide Encode, DecodeHead;
    i := CeilingBoundary(cs, a);
    j := FloorBoundary(cs, b);
    OffsetEnds(cs);
    if j < |cs| { OffsetStrict(cs, i, j + 1); }
    OffsetSlice(cs, i, j);
    OffsetSlice(cs, 0, j);
    SkipToBoundary(cs, a, b, i);
    TrimToBoundary(cs, i, j, b);
    Assemble(EncodeAll(cs), a, b, Offset(cs, i), Offset(cs, j), cs[i..j]);
  }

  lemma Assemble(f: seq<Byte>, a: nat, b: nat, lo: nat, hi: nat, text: seq<Rune>)
    requires a <= lo <= hi <= b <= |f|
    requires if a == 0 then lo == 0 else Skipped(f[a..b], 3) == lo - a
    requires Decode(f[lo..b]) == Text(text, f[hi..b])
    ensures WindowOf(a, f[a..b]) == Some(Window(lo, f[lo..hi], text))
  {
    hide Decode, Skipped;
    Reslice(f, a, b, lo - a, b - a);
    Reslice(f, a, b, lo - a, hi - a);
    assert f[a..b][lo - a..] == f[lo..b];
  }

  lemma Resplice<T>(s: seq<T>, a: nat, m: nat, b: nat)
    requires a <= m <= b <= |s|
    ensures s[a..b] == s[a..m] + s[m..b]
  {
  }

  lemma Reslice<T>(s: seq<T>, a: nat, b: nat, lo: nat, hi: nat)
    requires a <= b <= |s| && lo <= hi <= b - a
    ensures s[a..b][lo..hi] == s[a + lo..a + hi]
  {
    var x, y := s[a..b][lo..hi], s[a + lo..a + hi];
    assert forall k :: 0 <= k < hi - lo ==> x[k] == y[k];
  }

  /** The first character boundary at or after byte `a`, at most three bytes on. */
  lemma CeilingBoundary(cs: seq<Rune>, a: nat) returns (i: nat)
    requires a <= |EncodeAll(cs)|
    ensures i <= |cs| && a <= Offset(cs, i) <= a + 3
    ensures a == 0 ==> i == 0
    ensures i > 0 ==> Offset(cs, i - 1) < a
    ensures Offset(cs, i) <= |EncodeAll(cs)|
  {
    hide Encode;
    OffsetEnds(cs);
    if a == 0 {
      i := 0;
    } else {
      i := FloorBoundary(cs, a);
      if Offset(cs, i) < a {
        OffsetNext(cs, i);
        i := i + 1;
      } else {
        OffsetStrict(cs, i - 1, i);
      }
    }
    OffsetSlice(cs, 0, i);
  }

  lemma SkipToBoundary(cs: seq<Rune>, a: nat, b: nat, i: nat)
    requires i <= |cs| && a <= Offset(cs, i) <= b <= |EncodeAll(cs)| && Offset(cs, i) <= a + 3
    requires i > 0 ==> Offset(cs, i - 1) < a
    ensures Skipped(EncodeAll(cs)[a..b], 3) == Offset(cs, i) - a
  {
    hide Encode;
    var n := Offset(cs, i) - a;
    OffsetEnds(cs);
    forall k | 0 <= k < n
      ensures Continuation(EncodeAll(cs)[a..b][k])
    {
      InsideWindow(cs, a, b, i, k);
    }
    if n < b - a {
      LeadByte(cs, i);
      SliceIndex(EncodeAll(cs), a, b, a + n);
    }
    SkippedIsUnique(EncodeAll(cs)[a..b], 3, n);
  }

  lemma InsideWindow(cs: seq<Rune>, a: nat, b: nat, i: nat, k: nat)
    requires 0 < i <= |cs| && Offset(cs, i - 1) < a && a + k < Offset(cs, i) <= b <= |EncodeAll(cs)|
    ensures Continuation(EncodeAll(cs)[a..b][k])
  {
    hide Encode;
    InsideCharacter(cs, i - 1, a + k);
    SliceIndex(EncodeAll(cs), a, b, a + k);
  }

  lemma TrimToBoundary(cs: seq<Rune>, i: nat, j: nat, b: nat)
    requires i <= j <= |cs| && Offset(cs, i) <= Offset(cs, j) <= b <= |EncodeAll(cs)|
    requires j < |cs| ==> b < Offset(cs, j + 1)
    ensures Decode(EncodeAll(cs)[Offset(cs, i)..b]) == Text(cs[i..j], EncodeAll(cs)[Offset(cs, j)..b])
  {
    hide Encode, DecodeHead, EncodeAll, Decode, Offset;
    var f, tail := EncodeAll(cs), EncodeAll(cs)[Offset(cs, j)..b];
    OffsetSlice(cs, i, j);
    if j == |cs| {
      OffsetEnds(cs);
      assert tail == [];
    } else {
      OffsetNext(cs, j);
      Reslice(f, Offset(cs, j), Offset(cs, j + 1), 0, |tail|);
      assert tail == Encode(cs[j])[..|tail|];
    }
    Resplice(f, Offset(cs, i), Offset(cs, j), b);
    DecodeOfEncoded(cs[i..j], tail);
  }

  // ---- searching one window ----

  /** `str.find(query, from)` */
  function Find<T(==)>(text: seq<T>, query: seq<T>, from: nat): (r: Option<nat>)
    ensures r.Some? ==> from <= r.value && OccursAt(text, query, r.value)
    ensures r.Some? ==> forall k: nat :: from <= k < r.value ==> !OccursAt(text, query, k)
    ensures r.None? ==> forall k: nat :: from <= k ==> !OccursAt(text, query, k)
    decreases |text| - from
  {
    if from + |query| > |text| then None
    else if text[from..from + |query|] == query then Some(from)
    else if from == |text| then None
    else Find(text, query, from + 1)
  }

  /** Byte position at which a match at character `k` of a window ends. */
  function MatchEnd(windowStart: nat, text: seq<Rune>, query: seq<Rune>, k: nat): nat
    requires k + |query| <= |text|
  {
    windowStart + |EncodeAll(text[..k + |query|])|
  }

  /** `r` is the first match of a window that ends past `rawStart`, if there is one. */
  predicate IsFirstOwned(windowStart: nat, text: seq<Rune>, query: seq<Rune>, rawStart: nat, r: Option<nat>) {
    && (r.Some? ==> OccursAt(text, query, r.value) && MatchEnd(windowStart, text, query, r.value) > rawStart)
    && forall k: nat :: k <= |text| && OccursAt(text, query, k) && (r.Some? ==> k < r.value) ==>
         MatchEnd(windowStart, text, query, k) <= rawStart
  }

  method FirstOwned(windowStart: nat, text: seq<Rune>, query: seq<Rune>, rawStart: nat) returns (r: Option<nat>)
    ensures IsFirstOwned(windowStart, text, query, rawStart, r)
  {
    hide Encode;
    r := Find(text, query, 0);
    while r.Some? && MatchEnd(windowStart, text, query, r.value) <= rawStart
      invariant r.Some? ==> OccursAt(text, query, r.value)
      invariant forall k: nat :: k <= |text| && OccursAt(text, query, k) && (r.Some? ==> k < r.value) ==>
                  MatchEnd(windowStart, text, query, k) <= rawStart
      decreases if r.Some? then |text| + 1 - r.value else 0
    {
      r := Find(text, query, r.value + 1);
    }
  }

  /** Inside a window over `cs[i..j]`, where a match ends in the source. */
  lemma MatchEndInSource(cs: seq<Rune>, i: nat, j: nat, q: seq<Rune>, k: nat)
    requires i <= j <= |cs| && k + |q| <= j - i
    ensures MatchEnd(Offset(cs, i), cs[i..j], q, k) == Offset(cs, i + k + |q|)
  {
    hide Encode;
    assert cs[i..j][..k + |q|] == cs[i..i + k + |q|];
    OffsetSlice(cs, i, i + k + |q|);
  }

  lemma MatchStartInSource(cs: seq<Rune>, i: nat, j: nat, k: nat)
    requires i <= j <= |cs| && k <= j - i
    ensures Offset(cs, i) + |EncodeAll(cs[i..j][..k])| == Offset(cs, i + k)
  {
    hide Encode;
    assert cs[i..j][..k] == cs[i..i + k];
    OffsetSlice(cs, i, i + k);
  }

  lemma MatchInSource(cs: seq<Rune>, i: nat, j: nat, q: seq<Rune>, k: nat)
    requires i <= j <= |cs|
    ensures OccursAt(cs[i..j], q, k) <==> i + k + |q| <= j && OccursAt(cs, q, i + k)
  {
    if k + |q| <= j - i {
      Reslice(cs, i, j, k, k + |q|);
    }
  }

  // ---- the stored row of one frame, and a search over it ----

  /**
   A `frames` row with its posting. SHA-256 is modelled as injective, so `digest` is the
   bytes it commits to; a posting exists exactly when the window has text.
   */
  datatype Row = Row(rawStart: nat, rawEnd: nat, windowStart: nat, windowEnd: nat,
                     digest: seq<Byte>, posting: Option<seq<Rune>>)

  /** The row `_index_window` writes, or `None` when the window is not UTF-8. */
  function IndexedRow(rawStart: nat, rawEnd: nat, start: nat, body: seq<Byte>): Option<Row> {
    match WindowOf(start, body)
    case None => None
    case Some(w) =>
      Some(Row(rawStart, rawEnd, w.start, w.start + |w.body|, w.body, if w.text == [] then None else Some(w.text)))
  }

  /** The window `sync` reads for a frame: the frame and one maximum query before it. */
  function OverlapStart(rawStart: nat): nat {
    Max(0, rawStart - OVERLAP_BYTES)
  }

  function FrameRow(source: seq<Byte>, rawStart: nat, rawEnd: nat): Option<Row>
    requires rawStart <= rawEnd <= |source|
  {
    if rawStart == rawEnd then IndexedRow(rawStart, rawEnd, rawEnd, [])
    else IndexedRow(rawStart, rawEnd, OverlapStart(rawStart), source[OverlapStart(rawStart)..rawEnd])
  }

  /** FTS5 with the trigram tokenizer: the posted text contains the query. */
  predicate Candidate(row: Row, query: seq<Rune>) {
    row.posting.Some? && Find(row.posting.value, query, 0).Some?
  }

  datatype Hit = Hit(rowid: nat, matchStart: nat, matchEnd: nat)

  function HitAt(windowStart: nat, text: seq<Rune>, query: seq<Rune>, rowid: nat, p: nat): Hit
    requires p <= |text|
  {
    var start := windowStart + |EncodeAll(text[..p])|;
    Hit(rowid, start, start + |EncodeAll(query)|)
  }

  /** What one candidate row adds to the result when the client serves `source`. */
  ghost predicate IsRowHit(source: seq<Byte>, row: Row, query: seq<Rune>, rowid: nat, hit: Option<Hit>) {
    if !(row.windowStart <= row.windowEnd <= |source|) || source[row.windowStart..row.windowEnd] != row.digest then
      hit.None?
    else match Decode(row.digest)
      case Invalid => hit.None?
      case Text(text, pending) =>
        if pending != [] then hit.None?
        else exists k: Option<nat> ::
          && IsFirstOwned(row.windowStart, text, query, row.rawStart, k)
          && hit == match k
                    case None => None
                    case Some(p) => Some(HitAt(row.windowStart, text, query, rowid, p))
  }

  method SearchRow(source: seq<Byte>, row: Row, query: seq<Rune>, rowid: nat) returns (hit: Option<Hit>)
    ensures IsRowHit(source, row, query, rowid, hit)
  {
    hide Encode, DecodeHead;
    if !(row.windowStart <= row.windowEnd <= |source|) {
      return None;
    }
    var body := source[row.windowStart..row.windowEnd];
    if body != row.digest {
      return None;
    }
    match Decode(body) {
      case Invalid => hit := None;
      case Text(text, pending) =>
        if pending != [] {
          return None;
        }
        var k := FirstOwned(row.windowStart, text, query, row.rawStart);
        match k {
          case None => hit := None;
          case Some(p) =>
            hit := Some(HitAt(row.windowStart, text, query, rowid, p));
        }
        assert IsFirstOwned(row.windowStart, text, query, row.rawStart, k);
    }
  }

  // ---- agreement with naive search ----

  /** A byte occurrence whose end lies in the frame `(rawStart, rawEnd]`. */
  ghost predicate OwnedOccurrence(source: seq<Byte>, query: seq<Byte>, rawStart: nat, rawEnd: nat, p: nat) {
    OccursAt(source, query, p) && rawStart < p + |query| <= rawEnd
  }

  ghost predicate QueryOk(query: seq<Rune>) {
    3 <= |query| <= MAX_QUERY_CHARACTERS && 0 !in query
  }

  /** The characters a frame's row covers. */
  lemma FrameRowText(cs: seq<Rune>, rawStart: nat, rawEnd: nat) returns (row: Row, i: nat, j: nat)
    requires rawStart <= rawEnd <= |EncodeAll(cs)|
    ensures FrameRow(EncodeAll(cs), rawStart, rawEnd) == Some(row)
    ensures i <= j <= |cs| && Offset(cs, i) <= Offset(cs, j) <= |EncodeAll(cs)|
    ensures rawStart < rawEnd ==>
      && row.posting == (if i == j then None else Some(cs[i..j]))
      && row.windowStart == Offset(cs, i) && row.windowEnd == Offset(cs, j)
      && row.digest == EncodeAll(cs)[Offset(cs, i)..Offset(cs, j)]
    ensures row.rawStart == rawStart && row.rawEnd == rawEnd && row.windowEnd <= rawEnd
    ensures rawStart < rawEnd && i > 0 ==> Offset(cs, i - 1) < OverlapStart(rawStart)
    ensures rawStart < rawEnd && j < |cs| ==> rawEnd < Offset(cs, j + 1)
    ensures rawStart == rawEnd ==> row.posting == None
  {
    hide Encode, DecodeHead;
    OffsetEnds(cs);
    if rawStart == rawEnd {
      i, j := 0, 0;
      assert WindowOf(rawEnd, []) == Some(Window(rawEnd, [], []));
      row := Row(rawStart, rawEnd, rawEnd, rawEnd, [], None);
    } else {
      i, j := WindowText(cs, OverlapStart(rawStart), rawEnd);
      row := FrameRow(EncodeAll(cs), rawStart, rawEnd).value;
      assert cs[i..j] == [] <==> i == j;
    }
  }

  /** No occurrence owned by the frame falls outside its window. */
  lemma OwnedIsInWindow(cs: seq<Rune>, i: nat, j: nat, q: seq<Rune>, rawStart: nat, rawEnd: nat, p: nat)
    returns (k: nat)
    requires QueryOk(q) && i <= j <= |cs|
    requires OwnedOccurrence(EncodeAll(cs), EncodeAll(q), rawStart, rawEnd, p)
    requires i > 0 ==> Offset(cs, i - 1) < OverlapStart(rawStart)
    requires j < |cs| ==> rawEnd < Offset(cs, j + 1)
    ensures OccursAt(cs[i..j], q, k) && Offset(cs, i + k) == p
    ensures MatchEnd(Offset(cs, i), cs[i..j], q, k) == p + |EncodeAll(q)|
  {
    hide Encode;
    var m := ByteMatchIsCharacterMatch(cs, q, p);
    EncodedLength(q);
    if i > 0 { OffsetStrict(cs, i - 1, m); }
    if j < |cs| { OffsetStrict(cs, m + |q|, j + 1); }
    k := m - i;
    MatchInSource(cs, i, j, q, k);
    MatchEndInSource(cs, i, j, q, k);
  }

  /** A match in the window that ends past the overlap is an occurrence the frame owns. */
  lemma WindowMatchIsOwned(cs: seq<Rune>, i: nat, j: nat, q: seq<Rune>, rawStart: nat, rawEnd: nat, k: nat)
    requires i <= j <= |cs| && Offset(cs, j) <= rawEnd
    requires OccursAt(cs[i..j], q, k) && MatchEnd(Offset(cs, i), cs[i..j], q, k) > rawStart
    ensures OwnedOccurrence(EncodeAll(cs), EncodeAll(q), rawStart, rawEnd, Offset(cs, i + k))
  {
    hide Encode, EncodeAll, Offset, MatchEnd;
    MatchInSource(cs, i, j, q, k);
    MatchEndInSource(cs, i, j, q, k);
    CharacterMatchIsByteMatch(cs, q, i + k);
    OffsetOrder(cs, i + k + |q|, j);
  }

  lemma OffsetOrder(cs: seq<Rune>, i: nat, j: nat)
    requires i <= j <= |cs|
    ensures Offset(cs, i) <= Offset(cs, j)
  {
    hide Encode;
    OffsetSlice(cs, i, j);
  }

  /** The first owned match of a frame's window is the first occurrence the frame owns. */
  lemma FirstOwnedIsNaive(cs: seq<Rune>, i: nat, j: nat, q: seq<Rune>, rawStart: nat, rawEnd: nat, k: Option<nat>)
    requires QueryOk(q) && i <= j <= |cs| && Offset(cs, j) <= rawEnd
    requires i > 0 ==> Offset(cs, i - 1) < OverlapStart(rawStart)
    requires j < |cs| ==> rawEnd < Offset(cs, j + 1)
    requires IsFirstOwned(Offset(cs, i), cs[i..j], q, rawStart, k)
    ensures k.Some? ==> OwnedOccurrence(EncodeAll(cs), EncodeAll(q), rawStart, rawEnd, Offset(cs, i + k.value))
    ensures forall p: nat :: OwnedOccurrence(EncodeAll(cs), EncodeAll(q), rawStart, rawEnd, p) ==>
              k.Some? && Offset(cs, i + k.value) <= p
  {
    hide Encode, EncodeAll, Offset, MatchEnd, OverlapStart;
    if k.Some? { WindowMatchIsOwned(cs, i, j, q, rawStart, rawEnd, k.value); }
    forall p: nat | OwnedOccurrence(EncodeAll(cs), EncodeAll(q), rawStart, rawEnd, p)
      ensures k.Some? && Offset(cs, i + k.value) <= p
    {
      var m := OwnedIsInWindow(cs, i, j, q, rawStart, rawEnd, p);
      if k.Some? { OffsetStrict(cs, i + m, i + k.value); }
    }
  }

  /**
   Windowed search agrees with naive search on every frame: a frame yields a hit exactly when
   some byte occurrence of the query ends inside it, and the hit is the first of those.
   */
  lemma FrameSearchIsNaive(cs: seq<Rune>, rawStart: nat, rawEnd: nat, q: seq<Rune>, row: Row, rowid: nat,
                           hit: Option<Hit>)
    requires QueryOk(q) && rawStart <= rawEnd <= |EncodeAll(cs)|
    requires FrameRow(EncodeAll(cs), rawStart, rawEnd) == Some(row)
    requires IsRowHit(EncodeAll(cs), row, q, rowid, hit)
    ensures Candidate(row, q) && hit.Some? <==>
            exists p: nat :: OwnedOccurrence(EncodeAll(cs), EncodeAll(q), rawStart, rawEnd, p)
    ensures Candidate(row, q) && hit.Some? ==> HitIsFirst(EncodeAll(cs), EncodeAll(q), rawStart, rawEnd, rowid, hit.value)
  {
    hide Encode, EncodeAll, FrameRow, OwnedOccurrence, IsRowHit, Candidate, HitIsFirst;
    if rawStart == rawEnd {
      EmptyFrameOwnsNothing(EncodeAll(cs), EncodeAll(q), rawStart);
      EmptyFrameIsNoCandidate(cs, rawStart, q, row);
    } else {
      var r, i, j := FrameRowText(cs, rawStart, rawEnd);
      WindowSearchIsNaive(cs, rawStart, rawEnd, q, row, rowid, hit, i, j);
    }
  }

  lemma EmptyFrameIsNoCandidate(cs: seq<Rune>, at: nat, q: seq<Rune>, row: Row)
    requires at <= |EncodeAll(cs)| && FrameRow(EncodeAll(cs), at, at) == Some(row)
    ensures !Candidate(row, q)
  {
    hide Encode, EncodeAll, FrameRow, Find;
    var r, i, j := FrameRowText(cs, at, at);
  }

  lemma WindowSearchIsNaive(cs: seq<Rune>, rawStart: nat, rawEnd: nat, q: seq<Rune>, row: Row, rowid: nat,
                            hit: Option<Hit>, i: nat, j: nat)
    requires QueryOk(q) && rawStart < rawEnd <= |EncodeAll(cs)| && i <= j <= |cs|
    requires Offset(cs, i) <= Offset(cs, j) <= |EncodeAll(cs)|
    requires row == Row(rawStart, rawEnd, Offset(cs, i), Offset(cs, j), EncodeAll(cs)[Offset(cs, i)..Offset(cs, j)],
                        if cs[i..j] == [] then None else Some(cs[i..j]))
    requires i > 0 ==> Offset(cs, i - 1) < OverlapStart(rawStart)
    requires Offset(cs, j) <= rawEnd && (j < |cs| ==> rawEnd < Offset(cs, j + 1))
    requires IsRowHit(EncodeAll(cs), row, q, rowid, hit)
    ensures Candidate(row, q) && hit.Some? <==>
            exists p: nat :: OwnedOccurrence(EncodeAll(cs), EncodeAll(q), rawStart, rawEnd, p)
    ensures Candidate(row, q) && hit.Some? ==> HitIsFirst(EncodeAll(cs), EncodeAll(q), rawStart, rawEnd, rowid, hit.value)
  {
    hide Encode, EncodeAll, Offset, MatchEnd, DecodeHead, Decode, OwnedOccurrence, OverlapStart;
    var text := cs[i..j];
    OffsetSlice(cs, i, j);
    WholeTextDecodes(text);
    var k: Option<nat> :| && IsFirstOwned(row.windowStart, text, q, rawStart, k)
                          && hit == match k
                                    case None => None
                                    case Some(p) => Some(HitAt(row.windowStart, text, q, rowid, p));
    FirstOwnedIsNaive(cs, i, j, q, rawStart, rawEnd, k);
    if k.Some? {
      MatchStartInSource(cs, i, j, k.value);
      assert Find(text, q, 0).Some?;
    }
  }

  ghost predicate HitIsFirst(source: seq<Byte>, query: seq<Byte>, rawStart: nat, rawEnd: nat, rowid: nat, hit: Hit) {
    && hit.rowid == rowid && hit.matchEnd == hit.matchStart + |query|
    && OwnedOccurrence(source, query, rawStart, rawEnd, hit.matchStart)
    && forall p: nat :: OwnedOccurrence(source, query, rawStart, rawEnd, p) ==> hit.matchStart <= p
  }

  lemma EmptyFrameOwnsNothing(source: seq<Byte>, query: seq<Byte>, at: nat)
    ensures forall p: nat :: !OwnedOccurrence(source, query, at, at, p)
  {
  }

  lemma WholeTextDecodes(text: seq<Rune>)
    ensures Decode(EncodeAll(text)) == Text(text, [])
  {
    hide Encode, DecodeHead;
    DecodeOfEncoded(text, []);
    assert EncodeAll(text) + [] == EncodeAll(text);
  }

  // ---- a whole source ----

  ghost predicate IndexesFrame(source: seq<Byte>, row: Row) {
    row.rawStart <= row.rawEnd <= |source| && FrameRow(source, row.rawStart, row.rawEnd) == Some(row)
  }

  /** Rows that index consecutive frames of one source from its first byte on. */
  ghost predicate Indexes(source: seq<Byte>, rows: seq<Row>) {
    && (forall i :: 0 <= i < |rows| ==> IndexesFrame(source, rows[i]))
    && (forall i :: 0 <= i < |rows| ==> rows[i].rawStart == IndexedEnd(rows[..i]))
  }

  function IndexedEnd(rows: seq<Row>): nat {
    if rows == [] then 0 else rows[|rows| - 1].rawEnd
  }

  lemma {:induction false} RowsAreOrdered(source: seq<Byte>, rows: seq<Row>, i: nat, j: nat)
    requires Indexes(source, rows) && i < j < |rows|
    ensures rows[i].rawEnd <= rows[j].rawStart
    decreases j
  {
    hide FrameRow;
    assert rows[..j][j - 1] == rows[j - 1];
    if i < j - 1 { RowsAreOrdered(source, rows, i, j - 1); }
  }

  /** The row whose frame an offset in the indexed prefix ends in. */
  lemma OwningRow(source: seq<Byte>, rows: seq<Row>, end: nat) returns (i: nat)
    requires Indexes(source, rows) && 0 < end <= IndexedEnd(rows)
    ensures i < |rows| && rows[i].rawStart < end <= rows[i].rawEnd
    ensures forall k :: 0 <= k < |rows| && rows[k].rawStart < end <= rows[k].rawEnd ==> k == i
  {
    hide FrameRow;
    i := |rows| - 1;
    while end <= rows[i].rawStart
      invariant i < |rows| && end <= rows[i].rawEnd
      decreases i
    {
      assert rows[..i] != [];
      assert rows[..i][i - 1] == rows[i - 1];
      i := i - 1;
    }
    forall k | 0 <= k < |rows| && rows[k].rawStart < end <= rows[k].rawEnd
      ensures k == i
    {
      if k < i { RowsAreOrdered(source, rows, k, i); }
      if i < k { RowsAreOrdered(source, rows, i, k); }
    }
  }

  ghost predicate OnlyOwner(source: seq<Byte>, query: seq<Byte>, rows: seq<Row>, p: nat, i: nat) {
    && i < |rows| && OwnedOccurrence(source, query, rows[i].rawStart, rows[i].rawEnd, p)
    && forall k :: 0 <= k < |rows| && OwnedOccurrence(source, query, rows[k].rawStart, rows[k].rawEnd, p) ==> k == i
  }

  /**
   Search over an indexed prefix of a valid source: an occurrence that ends in the prefix,
   however it straddles frames and split characters, is owned by exactly one row; that row is
   a candidate, and searching it reports a match no later than the occurrence. With
   `FrameSearchIsNaive`, which says every hit is an occurrence, the rows together find what
   naive search finds.
   */
  lemma SearchIsNaive(cs: seq<Rune>, rows: seq<Row>, q: seq<Rune>, p: nat, hit: Option<Hit>) returns (i: nat)
    requires QueryOk(q) && Indexes(EncodeAll(cs), rows)
    requires OccursAt(EncodeAll(cs), EncodeAll(q), p) && p + |EncodeAll(q)| <= IndexedEnd(rows)
    ensures OnlyOwner(EncodeAll(cs), EncodeAll(q), rows, p, i) && Candidate(rows[i], q)
    ensures IsRowHit(EncodeAll(cs), rows[i], q, i + 1, hit) ==> hit.Some? && hit.value.matchStart <= p
  {
    hide Encode, EncodeAll, FrameRow, IsRowHit, Candidate, OccursAt;
    EncodedLength(q);
    i := OwningRow(EncodeAll(cs), rows, p + |EncodeAll(q)|);
    var exact := RowHitExists(EncodeAll(cs), rows[i], q, i + 1);
    FrameSearchIsNaive(cs, rows[i].rawStart, rows[i].rawEnd, q, rows[i], i + 1, exact);
    if IsRowHit(EncodeAll(cs), rows[i], q, i + 1, hit) {
      FrameSearchIsNaive(cs, rows[i].rawStart, rows[i].rawEnd, q, rows[i], i + 1, hit);
    }
  }

  /** Searching a row always has an answer. */
  lemma RowHitExists(source: seq<Byte>, row: Row, query: seq<Rune>, rowid: nat) returns (hit: Option<Hit>)
    ensures IsRowHit(source, row, query, rowid, hit)
  {
    hide Encode, EncodeAll, Decode, MatchEnd, OccursAt;
    hit := None;
    if row.windowStart <= row.windowEnd <= |source| && source[row.windowStart..row.windowEnd] == row.digest
       && Decode(row.digest).Text? && Decode(row.digest).pending == [] {
      var text := Decode(row.digest).runes;
      var k := FirstOwnedExists(row.windowStart, text, query, row.rawStart, 0);
      match k {
        case None => hit := None;
        case Some(p) => hit := Some(HitAt(row.windowStart, text, query, rowid, p));
      }
      assert IsFirstOwned(row.windowStart, text, query, row.rawStart, k);
    }
  }

  lemma {:induction false} FirstOwnedExists(windowStart: nat, text: seq<Rune>, query: seq<Rune>, rawStart: nat, from: nat)
    returns (r: Option<nat>)
    requires from <= |text| + 1
    requires forall k: nat :: k < from && OccursAt(text, query, k) ==> MatchEnd(windowStart, text, query, k) <= rawStart
    ensures IsFirstOwned(windowStart, text, query, rawStart, r) && (r.Some? ==> r.value <= |text|)
    decreases |text| + 1 - from
  {
    hide EncodeAll, MatchEnd;
    if from == |text| + 1 {
      r := None;
    } else if OccursAt(text, query, from) && MatchEnd(windowStart, text, query, from) > rawStart {
      r := Some(from);
    } else {
      r := FirstOwnedExists(windowStart, text, query, rawStart, from + 1);
    }
  }

  // ---- result pages ----

  /**
   Candidate rowids past `after`, in order; the row at index `i` has rowid `i + 1`. `keep` is the
   search's filter by task, repository, execution and capture time, whatever it says of each row.
   */
  function Candidates(rows: seq<Row>, query: seq<Rune>, keep: nat -> bool, after: nat): (ids: seq<nat>)
    ensures forall k :: 0 <= k < |ids| ==> after < ids[k] <= |rows| && Candidate(rows[ids[k] - 1], query) && keep(ids[k])
    decreases |rows| - after
  {
    if after >= |rows| then []
    else if Candidate(rows[after], query) && keep(after + 1) then [after + 1] + Candidates(rows, query, keep, after + 1)
    else Candidates(rows, query, keep, after + 1)
  }

  lemma {:induction false} CandidatesAfter(rows: seq<Row>, query: seq<Rune>, keep: nat -> bool, after: nat, n: nat)
    requires 0 < n <= |Candidates(rows, query, keep, after)|
    ensures Candidates(rows, query, keep, Candidates(rows, query, keep, after)[n - 1]) ==
            Candidates(rows, query, keep, after)[n..]
    decreases |rows| - after
  {
    hide Candidate;
    var rest := Candidates(rows, query, keep, after + 1);
    if !Candidate(rows[after], query) || !keep(after + 1) {
      CandidatesAfter(rows, query, keep, after + 1, n);
    } else {
      assert Candidates(rows, query, keep, after) == [after + 1] + rest;
      assert ([after + 1] + rest)[n..] == rest[n - 1..];
      if n > 1 { CandidatesAfter(rows, query, keep, after + 1, n - 1); }
    }
  }

  /** Candidates are listed in order, and none that is kept is missing. */
  lemma {:induction false} CandidatesAreAll(rows: seq<Row>, query: seq<Rune>, keep: nat -> bool, after: nat)
    ensures var ids := Candidates(rows, query, keep, after);
            && (forall i, j :: 0 <= i < j < |ids| ==> ids[i] < ids[j])
            && (forall id :: after < id <= |rows| && Candidate(rows[id - 1], query) && keep(id) ==> id in ids)
    decreases |rows| - after
  {
    hide Candidate;
    if after < |rows| {
      var ids, rest := Candidates(rows, query, keep, after), Candidates(rows, query, keep, after + 1);
      CandidatesAreAll(rows, query, keep, after + 1);
      if Candidate(rows[after], query) && keep(after + 1) {
        assert ids == [after + 1] + rest;
      } else {
        assert ids == rest;
      }
      hide Candidates;
      forall id | after < id <= |rows| && Candidate(rows[id - 1], query) && keep(id) ensures id in ids {
        if id > after + 1 {
          assert id in rest;
        }
      }
    }
  }

  function Present(found: seq<Option<Hit>>): seq<Hit> {
    if found == [] then []
    else (if found[0].Some? then [found[0].value] else []) + Present(found[1..])
  }

  lemma {:induction false} PresentSnoc(found: seq<Option<Hit>>, h: Option<Hit>)
    ensures Present(found + [h]) == Present(found) + (if h.Some? then [h.value] else [])
  {
    if found == [] {
      assert found + [h] == [h];
    } else {
      var longer := found + [h];
      assert longer[0] == found[0] && longer[1..] == found[1..] + [h];
      PresentSnoc(found[1..], h);
      Assoc(if found[0].Some? then [found[0].value] else [], Present(found[1..]), if h.Some? then [h.value] else []);
    }
  }

  datatype ResultPage = ResultPage(hits: seq<Hit>, nextAfter: Option<nat>)

  /** The hits a page owes: one search per candidate it was given, in rowid order. */
  ghost predicate IsPage(source: seq<Byte>, rows: seq<Row>, query: seq<Rune>, ids: seq<nat>, found: seq<Option<Hit>>) {
    && |found| == |ids|
    && forall k :: 0 <= k < |ids| ==>
         && 0 < ids[k] <= |rows|
         && IsRowHit(source, rows[ids[k] - 1], query, ids[k], found[k])
  }

  /** One page of a search: what it reports of the next `limit` candidates, and where the rest begin. */
  ghost predicate PageAt(source: seq<Byte>, rows: seq<Row>, query: seq<Rune>, keep: nat -> bool, limit: nat, after: nat,
                         page: ResultPage, found: seq<Option<Hit>>)
  {
    var all := Candidates(rows, query, keep, after);
    if |all| <= limit then IsPage(source, rows, query, all, found) && page == ResultPage(Present(found), None)
    else
      && IsPage(source, rows, query, all[..limit], found)
      && 0 < limit && page == ResultPage(Present(found), Some(all[limit - 1]))
      && Candidates(rows, query, keep, all[limit - 1]) == all[limit..]
  }

  ghost predicate IsPageAt(source: seq<Byte>, rows: seq<Row>, query: seq<Rune>, keep: nat -> bool, limit: nat, after: nat,
                           page: ResultPage)
  {
    exists found :: PageAt(source, rows, query, keep, limit, after, page, found)
  }

  /** Pages that follow `next_after` from `after` on, until there is none. */
  ghost predicate Followed(source: seq<Byte>, rows: seq<Row>, query: seq<Rune>, keep: nat -> bool, limit: nat, after: nat,
                           pages: seq<ResultPage>)
    decreases |pages|
  {
    && pages != [] && IsPageAt(source, rows, query, keep, limit, after, pages[0])
    && match pages[0].nextAfter
       case None => |pages| == 1
       case Some(next) => Followed(source, rows, query, keep, limit, next, pages[1..])
  }

  function AllHits(pages: seq<ResultPage>): seq<Hit> {
    if pages == [] then [] else pages[0].hits + AllHits(pages[1..])
  }

  lemma {:induction false} PresentJoin(a: seq<Option<Hit>>, b: seq<Option<Hit>>)
    ensures Present(a + b) == Present(a) + Present(b)
    decreases |a|
  {
    if a == [] {
      assert a + b == b;
    } else {
      assert (a + b)[0] == a[0] && (a + b)[1..] == a[1..] + b;
      PresentJoin(a[1..], b);
      Assoc(if a[0].Some? then [a[0].value] else [], Present(a[1..]), Present(b));
    }
  }

  lemma PagesJoin(source: seq<Byte>, rows: seq<Row>, query: seq<Rune>, ids: seq<nat>, n: nat,
                  a: seq<Option<Hit>>, b: seq<Option<Hit>>)
    requires n <= |ids| && IsPage(source, rows, query, ids[..n], a) && IsPage(source, rows, query, ids[n..], b)
    ensures IsPage(source, rows, query, ids, a + b)
  {
    hide IsRowHit;
    forall k | 0 <= k < |ids| ensures 0 < ids[k] <= |rows| && IsRowHit(source, rows[ids[k] - 1], query, ids[k], (a + b)[k]) {
      if k < n {
        assert ids[..n][k] == ids[k] && (a + b)[k] == a[k];
      } else {
        assert ids[n..][k - n] == ids[k] && (a + b)[k] == b[k - n];
      }
    }
  }

  /** Followed pages together search every candidate, each once. */
  lemma {:induction false} FollowedPagesAreOne(source: seq<Byte>, rows: seq<Row>, query: seq<Rune>, keep: nat -> bool,
                                               limit: nat, after: nat, pages: seq<ResultPage>)
    returns (found: seq<Option<Hit>>)
    requires limit > 0 && Followed(source, rows, query, keep, limit, after, pages)
    ensures IsPage(source, rows, query, Candidates(rows, query, keep, after), found) && AllHits(pages) == Present(found)
    decreases |pages|
  {
    hide Candidates, Candidate, IsRowHit, Present, IsPage;
    var all := Candidates(rows, query, keep, after);
    found :| PageAt(source, rows, query, keep, limit, after, pages[0], found);
    if |all| <= limit {
      assert pages[1..] == [];
      assert AllHits([]) == [] && pages[0].hits + [] == pages[0].hits;
    } else {
      var rest := FollowedPagesAreOne(source, rows, query, keep, limit, all[limit - 1], pages[1..]);
      PresentJoin(found, rest);
      PagesJoin(source, rows, query, all, limit, found, rest);
      found := found + rest;
    }
  }

  lemma {:induction false} PresentAreFound(found: seq<Option<Hit>>, h: Hit)
    ensures h in Present(found) <==> exists k: nat :: k < |found| && found[k] == Some(h)
    decreases |found|
  {
    if found != [] {
      PresentAreFound(found[1..], h);
      if k: nat :| k < |found| && found[k] == Some(h) {
        if k > 0 {
          assert found[1..][k - 1] == Some(h);
        }
      }
      if h in Present(found[1..]) {
        var k: nat :| k < |found[1..]| && found[1..][k] == Some(h);
        assert found[k + 1] == Some(h);
      }
    }
  }

  /** The hits found for these rows, each under its row's id. */
  ghost predicate Numbered(found: seq<Option<Hit>>, ids: seq<nat>) {
    && |found| == |ids| && (forall i, j :: 0 <= i < j < |ids| ==> ids[i] < ids[j])
    && (forall k :: 0 <= k < |ids| && found[k].Some? ==> found[k].value.rowid == ids[k])
  }

  ghost predicate InRowOrder(hits: seq<Hit>) {
    forall i, j :: 0 <= i < j < |hits| ==> hits[i].rowid < hits[j].rowid
  }

  lemma InRowOrderCons(h: Hit, later: seq<Hit>)
    requires InRowOrder(later) && forall x :: x in later ==> h.rowid < x.rowid
    ensures InRowOrder([h] + later)
  {
  }

  lemma {:induction false} PresentIsOrdered(found: seq<Option<Hit>>, ids: seq<nat>)
    requires Numbered(found, ids)
    ensures InRowOrder(Present(found))
    decreases |found|
  {
    hide InRowOrder;
    if found == [] {
      assert InRowOrder([]) by {
        NothingInRowOrder();
      }
    } else {
      assert Numbered(found[1..], ids[1..]);
      PresentIsOrdered(found[1..], ids[1..]);
      if found[0].Some? {
        forall h | h in Present(found[1..]) ensures found[0].value.rowid < h.rowid {
          LaterRows(found, ids, h);
        }
        InRowOrderCons(found[0].value, Present(found[1..]));
      } else {
        assert [] + Present(found[1..]) == Present(found[1..]);
      }
    }
  }

  lemma NothingInRowOrder()
    ensures InRowOrder([])
  {
  }

  lemma LaterRows(found: seq<Option<Hit>>, ids: seq<nat>, h: Hit)
    requires Numbered(found, ids) && found != [] && h in Present(found[1..])
    ensures ids[0] < h.rowid
  {
    hide Present;
    PresentAreFound(found[1..], h);
    var k: nat :| k < |found[1..]| && found[1..][k] == Some(h);
    assert found[k + 1] == Some(h);
  }

  ghost predicate OwnsOne(source: seq<Byte>, query: seq<Byte>, row: Row) {
    exists p: nat :: OwnedOccurrence(source, query, row.rawStart, row.rawEnd, p)
  }

  /** One hit of a followed search is the first occurrence its row owns. */
  ghost predicate HitOfRow(source: seq<Byte>, query: seq<Byte>, rows: seq<Row>, h: Hit) {
    && 0 < h.rowid <= |rows|
    && HitIsFirst(source, query, rows[h.rowid - 1].rawStart, rows[h.rowid - 1].rawEnd, h.rowid, h)
  }

  /**
   Paging end to end: following `next_after` from zero until there is none gives, in row order,
   exactly one hit for each kept row that owns an occurrence, and it is the first one owned.
   */
  lemma FollowedSearchIsNaive(cs: seq<Rune>, rows: seq<Row>, q: seq<Rune>, keep: nat -> bool, limit: nat,
                              pages: seq<ResultPage>)
    requires QueryOk(q) && Indexes(EncodeAll(cs), rows) && limit > 0
    requires Followed(EncodeAll(cs), rows, q, keep, limit, 0, pages)
    ensures var source, query, hits := EncodeAll(cs), EncodeAll(q), AllHits(pages);
            && InRowOrder(hits)
            && (forall h :: h in hits ==> HitOfRow(source, query, rows, h) && keep(h.rowid))
            && (forall id :: 0 < id <= |rows| && keep(id) && OwnsOne(source, query, rows[id - 1]) ==>
                  exists h :: h in hits && h.rowid == id)
  {
    hide Encode, EncodeAll, Decode, FrameRow, IsRowHit, Candidate, OccursAt, HitOfRow, OwnsOne, Followed, Present,
         QueryOk, AllHits, OwnedOccurrence, Candidates, Indexes, Numbered, HitIsFirst;
    var source, query, ids := EncodeAll(cs), EncodeAll(q), Candidates(rows, q, keep, 0);
    var found := FollowedPagesAreOne(source, rows, q, keep, limit, 0, pages);
    FoundAreNaive(cs, rows, q, keep, found);
    PresentIsOrdered(found, ids);
    forall h | h in AllHits(pages) ensures HitOfRow(source, query, rows, h) && keep(h.rowid) {
      PresentAreFound(found, h);
      var k: nat :| k < |found| && found[k] == Some(h);
      assert IsHitFor(source, query, rows, keep, ids[k], found[k]);
    }
    forall id | 0 < id <= |rows| && keep(id) && OwnsOne(source, query, rows[id - 1])
      ensures exists h :: h in AllHits(pages) && h.rowid == id
    {
      OwnerIsCandidate(cs, rows, q, id);
      CandidatesAreAll(rows, q, keep, 0);
      var k :| 0 <= k < |ids| && ids[k] == id;
      assert IsHitFor(source, query, rows, keep, ids[k], found[k]);
      PresentAreFound(found, found[k].value);
    }
  }

  /** The row of this id yields a hit exactly if it owns an occurrence. */
  ghost predicate IsHitFor(source: seq<Byte>, query: seq<Byte>, rows: seq<Row>, keep: nat -> bool, id: nat, hit: Option<Hit>) {
    && 0 < id <= |rows| && keep(id)
    && (hit.Some? <==> OwnsOne(source, query, rows[id - 1]))
    && (hit.Some? ==> hit.value.rowid == id && HitOfRow(source, query, rows, hit.value))
  }

  lemma FoundAreNaive(cs: seq<Rune>, rows: seq<Row>, q: seq<Rune>, keep: nat -> bool, found: seq<Option<Hit>>)
    requires QueryOk(q) && Indexes(EncodeAll(cs), rows)
    requires IsPage(EncodeAll(cs), rows, q, Candidates(rows, q, keep, 0), found)
    ensures var ids := Candidates(rows, q, keep, 0);
            && Numbered(found, ids)
            && forall k :: 0 <= k < |ids| ==> IsHitFor(EncodeAll(cs), EncodeAll(q), rows, keep, ids[k], found[k])
  {
    hide Encode, EncodeAll, Decode, FrameRow, IsRowHit, Candidate, OccursAt, HitOfRow, OwnsOne, QueryOk, Candidates, Indexes;
    var ids := Candidates(rows, q, keep, 0);
    CandidatesAreAll(rows, q, keep, 0);
    forall k | 0 <= k < |ids| ensures IsHitFor(EncodeAll(cs), EncodeAll(q), rows, keep, ids[k], found[k]) {
      RowIsNaive(cs, rows, q, ids[k], found[k]);
    }
  }

  lemma RowIsNaive(cs: seq<Rune>, rows: seq<Row>, q: seq<Rune>, id: nat, hit: Option<Hit>)
    requires QueryOk(q) && Indexes(EncodeAll(cs), rows) && 0 < id <= |rows|
    requires Candidate(rows[id - 1], q) && IsRowHit(EncodeAll(cs), rows[id - 1], q, id, hit)
    ensures hit.Some? <==> OwnsOne(EncodeAll(cs), EncodeAll(q), rows[id - 1])
    ensures hit.Some? ==> hit.value.rowid == id && HitOfRow(EncodeAll(cs), EncodeAll(q), rows, hit.value)
  {
    hide Encode, EncodeAll, FrameRow, IsRowHit, Candidate, OwnedOccurrence, QueryOk;
    var row := rows[id - 1];
    assert IndexesFrame(EncodeAll(cs), row);
    FrameSearchIsNaive(cs, row.rawStart, row.rawEnd, q, row, id, hit);
  }

  lemma OwnerIsCandidate(cs: seq<Rune>, rows: seq<Row>, q: seq<Rune>, id: nat)
    requires QueryOk(q) && Indexes(EncodeAll(cs), rows) && 0 < id <= |rows|
    requires OwnsOne(EncodeAll(cs), EncodeAll(q), rows[id - 1])
    ensures Candidate(rows[id - 1], q)
  {
    hide Encode, EncodeAll, FrameRow, IsRowHit, Candidate, OwnedOccurrence, QueryOk;
    var row := rows[id - 1];
    assert IndexesFrame(EncodeAll(cs), row);
    var hit := RowHitExists(EncodeAll(cs), row, q, id);
    FrameSearchIsNaive(cs, row.rawStart, row.rawEnd, q, row, id, hit);
  }

  // ---- streamed artifacts ----

  ghost predicate IsUtf8(source: seq<Byte>) {
    exists cs: seq<Rune> :: EncodeAll(cs) == source
  }

  lemma Utf8Decodes(source: seq<Byte>)
    ensures IsUtf8(source) <==> Decode(source).Text? && Decode(source).pending == []
  {
    hide Encode, EncodeAll, Decode;
    if IsUtf8(source) {
      var cs: seq<Rune> :| EncodeAll(cs) == source;
      WholeTextDecodes(cs);
    }
    if Decode(source).Text? && Decode(source).pending == [] {
      var cs := Decode(source).runes;
      DecodedIsEncoded(source, cs, []);
      assert EncodeAll(cs) + [] == EncodeAll(cs);
    }
  }

  /** `bytes[-OVERLAP_BYTES:]` */
  function LastOverlap(bytes: seq<Byte>): seq<Byte> {
    bytes[Max(0, |bytes| - OVERLAP_BYTES)..]
  }

  /** `tail + chunk`, placed `len(tail)` before the offset, is the window of a frame of the stream. */
  lemma ChunkWindow(sofar: seq<Byte>, chunk: seq<Byte>)
    requires chunk != []
    ensures LastOverlap(LastOverlap(sofar) + chunk) == LastOverlap(sofar + chunk)
    ensures |sofar| - |LastOverlap(sofar)| == OverlapStart(|sofar|)
    ensures LastOverlap(sofar) + chunk == (sofar + chunk)[OverlapStart(|sofar|)..|sofar + chunk|]
    ensures FrameRow(sofar + chunk, |sofar|, |sofar| + |chunk|) ==
            IndexedRow(|sofar|, |sofar| + |chunk|, |sofar| - |LastOverlap(sofar)|, LastOverlap(sofar) + chunk)
  {
    hide IndexedRow;
  }

  lemma IndexesLonger(a: seq<Byte>, b: seq<Byte>, rows: seq<Row>)
    requires Indexes(a, rows)
    ensures Indexes(a + b, rows)
  {
    hide IndexedRow;
    forall i | 0 <= i < |rows|
      ensures IndexesFrame(a + b, rows[i])
    {
      assert IndexesFrame(a, rows[i]);
      var start, end := OverlapStart(rows[i].rawStart), rows[i].rawEnd;
      assert (a + b)[start..end] == a[start..end];
    }
  }

  lemma IndexesSnoc(source: seq<Byte>, rows: seq<Row>, row: Row)
    requires Indexes(source, rows) && IndexesFrame(source, row) && row.rawStart == IndexedEnd(rows)
    ensures Indexes(source, rows + [row]) && IndexedEnd(rows + [row]) == row.rawEnd
  {
    hide IndexesFrame;
    assert (rows + [row])[..|rows|] == rows;
    forall i | 0 <= i < |rows|
      ensures (rows + [row])[..i] == rows[..i]
    {
    }
  }

  /** The loop state of `sync_artifact` after the bytes `sofar`. */
  ghost predicate Streamed(sofar: seq<Byte>, offset: nat, tail: seq<Byte>, pending: seq<Byte>, indexed: seq<Row>) {
    && offset == |sofar| && tail == LastOverlap(sofar)
    && Decode(sofar).Text? && Decode(sofar).pending == pending
    && Indexes(sofar, indexed) && IndexedEnd(indexed) == offset
  }

  /** One pass through the loop: decode the chunk, index its window, keep the new tail. */
  method StreamChunk(ghost sofar: seq<Byte>, offset: nat, tail: seq<Byte>, pending: seq<Byte>, indexed: seq<Row>,
                     chunk: seq<Byte>) returns (r: Option<(seq<Byte>, seq<Byte>, seq<Row>)>)
    requires chunk != [] && Streamed(sofar, offset, tail, pending, indexed)
    ensures r.Some? ==> Streamed(sofar + chunk, offset + |chunk|, r.value.0, r.value.1, r.value.2)
    ensures r.Some? ==> |r.value.2| == |indexed| + 1
    ensures r.None? ==> forall rest :: !IsUtf8(sofar + chunk + rest)
  {
    hide Encode, EncodeAll, Decode, FrameRow, IndexedRow, Indexes, LastOverlap, OverlapStart, IsUtf8;
    DecodeContinues(sofar, chunk, Decode(sofar).runes, pending);
    var decoded := Decode(pending + chunk);
    if decoded.Invalid? {
      forall rest
        ensures !IsUtf8(sofar + chunk + rest)
      {
        InvalidContinues(sofar + chunk, rest);
        Utf8Decodes(sofar + chunk + rest);
      }
      return None;
    }
    ChunkWindow(sofar, chunk);
    var row := IndexedRow(offset, offset + |chunk|, offset - |tail|, tail + chunk);
    if row.None? {
      forall rest
        ensures !IsUtf8(sofar + chunk + rest)
      {
        UnindexableIsNotUtf8(sofar, chunk, rest);
      }
      return None;
    }
    IndexedRowPlace(offset, offset + |chunk|, offset - |tail|, tail + chunk);
    IndexesLonger(sofar, chunk, indexed);
    IndexesSnoc(sofar + chunk, indexed, row.value);
    r := Some((LastOverlap(tail + chunk), decoded.pending, indexed + [row.value]));
  }

  lemma IndexedRowPlace(rawStart: nat, rawEnd: nat, start: nat, body: seq<Byte>)
    ensures var r := IndexedRow(rawStart, rawEnd, start, body);
            r.Some? ==> r.value.rawStart == rawStart && r.value.rawEnd == rawEnd
  {
    hide WindowOf;
  }

  lemma UnindexableIsNotUtf8(sofar: seq<Byte>, chunk: seq<Byte>, rest: seq<Byte>)
    requires chunk != [] && FrameRow(sofar + chunk, |sofar|, |sofar| + |chunk|).None?
    ensures !IsUtf8(sofar + chunk + rest)
  {
    hide Encode, EncodeAll, IndexedRow;
    var source, start, end := sofar + chunk + rest, OverlapStart(|sofar|), |sofar| + |chunk|;
    assert source[start..end] == (sofar + chunk)[start..end];
    if IsUtf8(source) {
      var cs: seq<Rune> :| EncodeAll(cs) == source;
      var row, i, j := FrameRowText(cs, |sofar|, |sofar| + |chunk|);
      assert false;
    }
  }

  const TRANSFER_BYTES: nat := 64 * 1024

  /** What the executor promises of an artifact; the digest stands for the bytes it commits to. */
  datatype Receipt = Receipt(facts: string, size: nat, digest: seq<Byte>)

  /** `verified_chunks` gives all its chunks: bounded ones that are the bytes of the receipt. */
  predicate Verified(chunks: seq<seq<Byte>>, receipt: Receipt) {
    && (forall k :: 0 <= k < |chunks| ==> 0 < |chunks[k]| <= TRANSFER_BYTES)
    && |Concat(chunks)| == receipt.size && Concat(chunks) == receipt.digest
  }

  class Index {
    var rows: seq<Row>
    var receipt: Option<Receipt>

    constructor ()
      ensures Valid() && rows == [] && receipt == None
    {
      rows, receipt := [], None;
    }

    /** The `SELECT … rowid > after ORDER BY rowid LIMIT limit + 1` of a search. */
    method Select(query: seq<Rune>, keep: nat -> bool, limit: nat, after: nat) returns (ids: seq<nat>)
      ensures ids == Candidates(rows, query, keep, after)[..Min(|Candidates(rows, query, keep, after)|, limit + 1)]
    {
      hide Candidate;
      var at := after;
      ids := [];
      while at < |rows| && |ids| <= limit
        invariant after <= at && |ids| <= limit + 1
        invariant Candidates(rows, query, keep, after) == ids + Candidates(rows, query, keep, at)
      {
        if Candidate(rows[at], query) && keep(at + 1) {
          Assoc(ids, [at + 1], Candidates(rows, query, keep, at + 1));
          ids := ids + [at + 1];
        }
        at := at + 1;
      }
    }

    method SearchEach(source: seq<Byte>, query: seq<Rune>, ids: seq<nat>)
      returns (hits: seq<Hit>, ghost found: seq<Option<Hit>>)
      requires forall k :: 0 <= k < |ids| ==> 0 < ids[k] <= |rows|
      ensures IsPage(source, rows, query, ids, found) && hits == Present(found)
    {
      hide IsRowHit;
      found, hits := [], [];
      for k := 0 to |ids|
        invariant IsPage(source, rows, query, ids[..k], found) && hits == Present(found)
      {
        var hit := SearchRow(source, rows[ids[k] - 1], query, ids[k]);
        if hit.Some? {
          hits := hits + [hit.value];
        }
        PresentSnoc(found, hit);
        found := found + [hit];
      }
      assert ids[..|ids|] == ids;
    }

    /** `None` is the `ValueError` for an unusable query, limit or cursor. */
    method Search(source: seq<Byte>, query: seq<Rune>, keep: nat -> bool, limit: int, after: int)
      returns (page: Option<ResultPage>, ghost found: seq<Option<Hit>>)
      ensures page.Some? <==> QueryOk(query) && 1 <= limit <= 100 && 0 <= after
      ensures page.Some? ==> PageAt(source, rows, query, keep, limit, after, page.value, found)
    {
      hide Candidate, IsPage;
      found := [];
      if !(3 <= |query| <= MAX_QUERY_CHARACTERS) || 0 in query || !(1 <= limit <= 100) || after < 0 {
        return None, [];
      }
      var ids := Select(query, keep, limit, after);
      var next := None;
      if |ids| > limit {
        CandidatesAfter(rows, query, keep, after, limit);
        next := Some(ids[limit - 1]);
        ids := ids[..limit];
        assert ids == Candidates(rows, query, keep, after)[..limit];
      } else {
        assert ids == Candidates(rows, query, keep, after);
      }
      var hits;
      hits, found := SearchEach(source, query, ids);
      page := Some(ResultPage(hits, next));
    }

    // ---- immutable artifacts ----

    /** The receipt is stored with the rows, once the artifact is indexed whole. */
    ghost predicate Valid()
      reads this
    {
      receipt.None? ==> rows == []
    }

    /**
     One transaction over a streamed artifact. It commits exactly when the chunks are the bytes of
     the receipt and these are UTF-8; the rows it then holds are frame rows of the stream, so what
     is proved about frames holds of chunks. Otherwise nothing is stored. An artifact indexed
     before stays as it is, and is refused under another receipt.
     */
    method SyncArtifact(expected: Receipt, chunks: seq<seq<Byte>>) returns (ok: bool)
      requires Valid()
      modifies this
      ensures Valid() && receipt == if ok then Some(expected) else old(receipt)
      ensures old(receipt).Some? ==> rows == old(rows) && (ok <==> old(receipt) == Some(expected))
      ensures old(receipt).None? ==> (ok <==> Verified(chunks, expected) && IsUtf8(Concat(chunks)))
      ensures old(receipt).None? && ok ==>
                |rows| == |chunks| && Indexes(Concat(chunks), rows) && IndexedEnd(rows) == |Concat(chunks)|
    {
      hide Encode, EncodeAll, FrameRow, IndexedRow, IsUtf8, OverlapStart;
      if receipt.Some? {
        return receipt.value == expected;
      }
      var indexed, bytes := IndexStream(expected.size, chunks);
      if indexed.None? || bytes != expected.digest || |bytes| != expected.size {
        return false;
      }
      rows, receipt := indexed.value, Some(expected);
      ok := true;
    }

    /** The loop over `verified_chunks`: rows, and the bytes its digest was updated with. */
    method IndexStream(size: nat, chunks: seq<seq<Byte>>) returns (rows: Option<seq<Row>>, bytes: seq<Byte>)
      ensures rows.Some? ==>
                && bytes == Concat(chunks) && IsUtf8(bytes) && |rows.value| == |chunks|
                && (forall k :: 0 <= k < |chunks| ==> 0 < |chunks[k]| <= TRANSFER_BYTES)
                && Indexes(bytes, rows.value) && IndexedEnd(rows.value) == |bytes|
      ensures rows.None? ==>
                || (exists k :: 0 <= k < |chunks| && !(0 < |chunks[k]| <= TRANSFER_BYTES))
                || |Concat(chunks)| > size || !IsUtf8(Concat(chunks))
    {
      hide Encode, EncodeAll, FrameRow, IndexedRow, IsUtf8, OverlapStart, Indexes;
      var offset: nat := 0;
      var tail, pending, indexed := [], [], [];
      bytes := [];
      StreamedNothing();
      for k := 0 to |chunks|
        invariant forall i :: 0 <= i < k ==> 0 < |chunks[i]| <= TRANSFER_BYTES
        invariant |indexed| == k && bytes == Concat(chunks[..k])
        invariant Streamed(bytes, offset, tail, pending, indexed)
      {
        var chunk := chunks[k];
        if !(0 < |chunk| <= TRANSFER_BYTES) {
          return None, bytes;
        }
        assert chunks[..k + 1][..k] == chunks[..k];
        ghost var rest := ConcatPrefix(chunks, k + 1);
        if offset + |chunk| > size {
          return None, bytes;
        }
        var r := StreamChunk(bytes, offset, tail, pending, indexed, chunk);
        if r.None? {
          return None, bytes;
        }
        tail, pending, indexed := r.value.0, r.value.1, r.value.2;
        bytes := bytes + chunk;
        offset := offset + |chunk|;
      }
      assert chunks[..|chunks|] == chunks;
      Utf8Decodes(Concat(chunks));
      if pending != [] {
        return None, bytes;
      }
      rows := Some(indexed);
    }
  }

  lemma StreamedNothing()
    ensures Streamed([], 0, [], [], [])
  {
  }
}
