/**
 Reassembling newline-separated records from arbitrary pieces: provider lines from the stdout
 chunks of a log (`usage.py`) and JSONL records from native frames (`evidence_stream.py`).
 Both are proved against plain splitting of the concatenation, so the framing cannot matter.
 */
module Streaming {
  import opened Options
  import opened Sequences
  import opened Utf8

  const MAX_RECORD_BYTES: nat := 1024 * 1024
  const NEWLINE: Rune := 10
  const RETURN: Rune := 13

  // ---- the reference: splitting a whole text ----

  function Join<T>(parts: seq<seq<T>>, sep: T): seq<T>
    requires parts != []
  {
    if |parts| == 1 then parts[0] else Join(parts[..|parts| - 1], sep) + [sep] + parts[|parts| - 1]
  }

  /** `text.split(sep)`: the pieces hold no separator and joined by it give the text back. */
  function Split<T(==)>(text: seq<T>, sep: T): (parts: seq<seq<T>>)
    ensures parts != [] && Join(parts, sep) == text
    ensures forall i :: 0 <= i < |parts| ==> sep !in parts[i]
  {
    if text == [] then [[]]
    else
      var parts, c := Split(text[..|text| - 1], sep), text[|text| - 1];
      if c == sep then SplitJoinBreak(parts, sep); parts + [[]]
      else SplitJoinMore(parts, sep, c); parts[..|parts| - 1] + [parts[|parts| - 1] + [c]]
  }

  lemma SplitJoinBreak<T>(parts: seq<seq<T>>, sep: T)
    requires parts != []
    ensures Join(parts + [[]], sep) == Join(parts, sep) + [sep]
  {
    assert (parts + [[]])[..|parts|] == parts;
  }

  lemma SplitJoinMore<T>(parts: seq<seq<T>>, sep: T, c: T)
    requires parts != []
    ensures Join(parts[..|parts| - 1] + [parts[|parts| - 1] + [c]], sep) == Join(parts, sep) + [c]
  {
    var n := |parts| - 1;
    var longer := parts[..n] + [parts[n] + [c]];
    assert longer[..n] == parts[..n] && longer[n] == parts[n] + [c];
    if n > 0 { Assoc(Join(parts[..n], sep) + [sep], parts[n], [c]); }
  }

  function Ended<T(==)>(text: seq<T>, sep: T): seq<seq<T>> {
    var parts := Split(text, sep);
    parts[..|parts| - 1]
  }

  function Tail<T(==)>(text: seq<T>, sep: T): (tail: seq<T>)
    ensures sep !in tail
  {
    var parts := Split(text, sep);
    parts[|parts| - 1]
  }

  lemma {:induction false} SplitMore<T>(text: seq<T>, part: seq<T>, sep: T)
    requires sep !in part
    ensures Ended(text + part, sep) == Ended(text, sep)
    ensures Tail(text + part, sep) == Tail(text, sep) + part
    decreases |part|
  {
    if part == [] {
      assert text + part == text;
    } else {
      var n := |part| - 1;
      SplitMore(text, part[..n], sep);
      assert (text + part)[..|text + part| - 1] == text + part[..n];
      assert part == part[..n] + [part[n]];
    }
  }

  lemma SplitBreak<T>(text: seq<T>, sep: T)
    ensures Ended(text + [sep], sep) == Ended(text, sep) + [Tail(text, sep)]
    ensures Tail(text + [sep], sep) == []
  {
    assert (text + [sep])[..|text|] == text;
    var parts := Split(text, sep);
    assert parts == parts[..|parts| - 1] + [parts[|parts| - 1]];
  }

  /** A piece and the separator that ends it. */
  lemma SplitLine<T>(text: seq<T>, part: seq<T>, sep: T)
    requires sep !in part
    ensures Ended(text + part + [sep], sep) == Ended(text, sep) + [Tail(text, sep) + part]
    ensures Tail(text + part + [sep], sep) == []
  {
    SplitMore(text, part, sep);
    SplitBreak(text + part, sep);
  }

  /** Only one list of separator-free pieces joins to a text, so `Split` is the split. */
  lemma {:induction false} SplitIsUnique<T>(parts: seq<seq<T>>, sep: T)
    requires parts != [] && forall i :: 0 <= i < |parts| ==> sep !in parts[i]
    ensures Split(Join(parts, sep), sep) == parts
  {
    hide Split;
    var n := |parts| - 1;
    if n == 0 {
      SplitMore([], parts[0], sep);
      EmptySplits(sep);
      assert [] + parts[0] == parts[0];
      SplitParts(parts[0], sep);
    } else {
      SplitIsUnique(parts[..n], sep);
      var before := Join(parts[..n], sep);
      SplitBreak(before, sep);
      SplitMore(before + [sep], parts[n], sep);
      SplitParts(before, sep);
      SplitParts(Join(parts, sep), sep);
      assert [] + parts[n] == parts[n];
      assert parts == parts[..n] + [parts[n]];
    }
  }

  lemma EmptySplits<T>(sep: T)
    ensures Ended<T>([], sep) == [] && Tail<T>([], sep) == []
  {
  }

  lemma SplitParts<T>(text: seq<T>, sep: T)
    ensures Split(text, sep) == Ended(text, sep) + [Tail(text, sep)]
  {
    hide Split;
    var parts := Split(text, sep);
    assert parts == parts[..|parts| - 1] + [parts[|parts| - 1]];
  }

  // ---- provider lines from stdout chunks ----

  function Bytes(text: seq<Rune>): nat {
    |EncodeAll(text)|
  }

  function StripReturns(line: seq<Rune>): seq<Rune> {
    if line != [] && line[|line| - 1] == RETURN then StripReturns(line[..|line| - 1]) else line
  }

  datatype Event = Line(text: seq<Rune>) | Oversized

  /** What a whole line leads to: `consume_provider_line`, or the over-long error. */
  function Outcome(line: seq<Rune>): Event {
    if Bytes(line) <= MAX_RECORD_BYTES then Line(StripReturns(line)) else Oversized
  }

  function Outcomes(lines: seq<seq<Rune>>): (es: seq<Event>)
    ensures |es| == |lines| && forall i :: 0 <= i < |es| ==> es[i] == Outcome(lines[i])
  {
    seq(|lines|, i requires 0 <= i < |lines| => Outcome(lines[i]))
  }

  /** Everything a text leads to: its complete lines, and an unfinished line already too long. */
  function Consumed(text: seq<Rune>): seq<Event> {
    Outcomes(Ended(text, NEWLINE)) + OverLong(Tail(text, NEWLINE))
  }

  function OverLong(tail: seq<Rune>): seq<Event> {
    if Bytes(tail) > MAX_RECORD_BYTES then [Oversized] else []
  }

  lemma ConsumedMore(text: seq<Rune>, part: seq<Rune>)
    requires NEWLINE !in part
    ensures Consumed(text + part) == Outcomes(Ended(text, NEWLINE)) + OverLong(Tail(text, NEWLINE) + part)
  {
    hide Ended, Tail, Bytes;
    SplitMore(text, part, NEWLINE);
  }

  lemma ConsumedLine(text: seq<Rune>, part: seq<Rune>)
    requires NEWLINE !in part
    ensures Consumed(text + part + [NEWLINE]) == Outcomes(Ended(text, NEWLINE)) + [Outcome(Tail(text, NEWLINE) + part)]
    ensures Tail(text + part + [NEWLINE], NEWLINE) == []
  {
    hide Ended, Tail, Outcome;
    SplitLine(text, part, NEWLINE);
    var lines, line := Ended(text, NEWLINE), Tail(text, NEWLINE) + part;
    assert Outcomes(lines + [line]) == Outcomes(lines) + [Outcome(line)];
    assert OverLong([]) == [];
  }

  lemma {:induction false} StrippedEnds(line: seq<Rune>)
    ensures var text := StripReturns(line);
            && text <= line && (text == [] || text[|text| - 1] != 13)
            && forall i :: |text| <= i < |line| ==> line[i] == 13
    decreases |line|
  {
    if line != [] && line[|line| - 1] == RETURN {
      StrippedEnds(line[..|line| - 1]);
    }
  }

  /**
   What is consumed of a text: for each complete line, in order, the line without the returns at its
   end if it fits one mebibyte, and one over-long record otherwise, also for an unfinished line.
   */
  lemma EveryLineIsConsumed(text: seq<Rune>)
    ensures var lines, tail, es := Ended(text, NEWLINE), Tail(text, NEWLINE), Consumed(text);
            && |es| == |lines| + (if |EncodeAll(tail)| > 1048576 then 1 else 0)
            && (forall i :: 0 <= i < |lines| ==>
                  if |EncodeAll(lines[i])| <= 1048576 then es[i].Line? && IsStripped(es[i].text, lines[i]) else es[i] == Oversized)
            && (|es| > |lines| ==> es[|lines|] == Oversized)
  {
    hide Ended, Tail, StripReturns, EncodeAll;
    forall i | 0 <= i < |Ended(text, NEWLINE)| ensures IsStripped(StripReturns(Ended(text, NEWLINE)[i]), Ended(text, NEWLINE)[i]) {
      StrippedEnds(Ended(text, NEWLINE)[i]);
    }
  }

  predicate IsStripped(text: seq<Rune>, line: seq<Rune>) {
    && text <= line && (text == [] || text[|text| - 1] != 13)
    && forall i :: |text| <= i < |line| ==> line[i] == 13
  }

  datatype Error = ExceedsBound | Malformed | PartialRecord

  function ErrorOf(e: Event, malformed: seq<Rune> -> bool): Option<Error> {
    match e
    case Oversized => Some(ExceedsBound)
    case Line(text) => if malformed(text) then Some(Error.Malformed) else None
  }

  /** `provider_error` keeps the first error only. */
  function FirstError(es: seq<Event>, malformed: seq<Rune> -> bool): Option<Error> {
    if es == [] then None
    else
      var earlier := FirstError(es[..|es| - 1], malformed);
      if earlier.Some? then earlier else ErrorOf(es[|es| - 1], malformed)
  }

  predicate Clean(e: Event, malformed: seq<Rune> -> bool) {
    e.Line? && !malformed(e.text)
  }

  /** The error kept is that of the first event that has one: an over-long record, or a line that does not parse. */
  lemma {:induction false} FirstErrorIsFirst(es: seq<Event>, malformed: seq<Rune> -> bool) returns (i: nat)
    ensures i <= |es| && (forall j :: 0 <= j < i ==> Clean(es[j], malformed)) && (i < |es| ==> !Clean(es[i], malformed))
    ensures FirstError(es, malformed) ==
            if i == |es| then None else if es[i].Oversized? then Some(ExceedsBound) else Some(Error.Malformed)
    decreases |es|
  {
    if es == [] {
      i := 0;
    } else {
      var n := |es| - 1;
      i := FirstErrorIsFirst(es[..n], malformed);
      assert forall j :: 0 <= j < n ==> es[..n][j] == es[j];
      if i == n && Clean(es[n], malformed) {
        i := |es|;
      }
    }
  }

  function FirstNewline(text: seq<Rune>): (i: nat)
    ensures i <= |text| && NEWLINE !in text[..i] && (i < |text| ==> text[i] == NEWLINE)
  {
    if text == [] || text[0] == NEWLINE then 0
    else
      var i := FirstNewline(text[1..]);
      assert text[..i + 1] == [text[0]] + text[1..][..i];
      i + 1
  }

  lemma BytesOfConcat(a: seq<Rune>, b: seq<Rune>)
    ensures Bytes(a + b) == Bytes(a) + Bytes(b)
  {
    EncodeAllConcat(a, b);
  }

  /** What a chunk's part up to its newline adds to what was consumed before it. */
  lemma LineTurn(text: seq<Rune>, part: seq<Rune>)
    requires NEWLINE !in part
    ensures Tail(text + part + [NEWLINE], NEWLINE) == []
    ensures var tail := Tail(text, NEWLINE);
            Consumed(text + part + [NEWLINE]) == Consumed(text) +
              if Bytes(tail) > MAX_RECORD_BYTES then []
              else if Bytes(tail) + Bytes(part) > MAX_RECORD_BYTES then [Oversized]
              else [Line(StripReturns(tail + part))]
  {
    hide Ended, Tail, Consumed, Outcomes, StripReturns, Bytes;
    ConsumedMore(text, []);
    assert text + [] == text && Tail(text, NEWLINE) + [] == Tail(text, NEWLINE);
    ConsumedLine(text, part);
    BytesOfConcat(Tail(text, NEWLINE), part);
  }

  /** What a part without a newline adds. */
  lemma PartTurn(text: seq<Rune>, part: seq<Rune>)
    requires NEWLINE !in part
    ensures var tail := Tail(text, NEWLINE);
            && Tail(text + part, NEWLINE) == tail + part && Bytes(tail + part) == Bytes(tail) + Bytes(part)
            && Consumed(text + part) == Consumed(text) +
                 if Bytes(tail) <= MAX_RECORD_BYTES < Bytes(tail) + Bytes(part) then [Oversized] else []
  {
    hide Ended, Tail, Consumed, Outcomes, StripReturns, Bytes;
    ConsumedMore(text, []);
    assert text + [] == text && Tail(text, NEWLINE) + [] == Tail(text, NEWLINE);
    SplitMore(text, part, NEWLINE);
    ConsumedMore(text, part);
    BytesOfConcat(Tail(text, NEWLINE), part);
  }

  class StdoutReader {
    const malformed: seq<Rune> -> bool
    var pending: seq<Rune>      // `pending_stdout` joined; the list is empty exactly when this is
    var pendingBytes: nat
    var discarding: bool
    var events: seq<Event>      // the calls of consume_provider_line and over-long errors, in order
    var error: Option<Error>
    ghost var read: seq<Rune>   // the concatenation of the chunks so far

    ghost predicate Valid()
      reads this
    {
      && events == Consumed(read) && error == FirstError(events, malformed)
      && pendingBytes == Bytes(pending)
      && if discarding then pending == [] && Bytes(Tail(read, NEWLINE)) > MAX_RECORD_BYTES
         else pending == Tail(read, NEWLINE) && pendingBytes <= MAX_RECORD_BYTES
    }

    constructor (malformed: seq<Rune> -> bool)
      ensures Valid() && read == [] && this.malformed == malformed
    {
      this.malformed := malformed;
      pending, pendingBytes, discarding, events, error, read := [], 0, false, [], None, [];
    }

    method Emit(e: Event)
      requires error == FirstError(events, malformed)
      modifies `events, `error
      ensures events == old(events) + [e] && error == FirstError(events, malformed)
    {
      events := events + [e];
      if error.None? {
        error := ErrorOf(e, malformed);
      }
      assert events[..|events| - 1] == old(events);
    }

    method Consume(chunk: seq<Rune>)
      requires Valid()
      modifies this
      ensures Valid() && read == old(read) + chunk
    {
      hide Encode, Split, FirstError, Outcome;
      var rest := chunk;
      while rest != []
        invariant Valid() && read + rest == old(read) + chunk
        decreases |rest|
      {
        rest := Advance(rest);
      }
    }

    /** One turn of the loop: up to and including the next newline, or all of the chunk. */
    method Advance(chunk: seq<Rune>) returns (rest: seq<Rune>)
      requires Valid() && chunk != []
      modifies this
      ensures Valid() && |rest| < |chunk| && read + rest == old(read) + chunk
    {
      hide Encode, Split, FirstError, Ended, Tail, Consumed, Outcomes, Outcome, StripReturns, Bytes, ErrorOf;
      var i := FirstNewline(chunk);
      var part, newline := chunk[..i], i < |chunk|;
      rest := if newline then chunk[i + 1..] else [];
      EmptyFits();
      if newline {
        LineTurn(read, part);
        read := read + part + [NEWLINE];
        assert chunk == part + [NEWLINE] + rest;
      } else {
        PartTurn(read, part);
        read := read + part;
        assert chunk == part;
      }
      if discarding {
        if newline {
          discarding := false;
        }
      } else if pendingBytes + Bytes(part) > MAX_RECORD_BYTES {
        Emit(Oversized);
        pending, pendingBytes := [], 0;
        if !newline {
          discarding := true;
        }
      } else if newline {
        pending := pending + part;
        Emit(Line(StripReturns(pending)));
        pending, pendingBytes := [], 0;
      } else {
        pending, pendingBytes := pending + part, pendingBytes + Bytes(part);
      }
    }
  }

  /** What `derive` reports of a text: the lines consumed and the first error. */
  function FinalError(text: seq<Rune>, malformed: seq<Rune> -> bool): Option<Error> {
    var first := FirstError(Consumed(text), malformed);
    if first.Some? then first
    else if Tail(text, NEWLINE) != [] then Some(PartialRecord)
    else None
  }

  /**
   The stdout side of `derive`. The outcome is a function of the concatenated text alone, so no
   chunking can add, drop, reorder or change a line, or change the first error.
   */
  method Derive(chunks: seq<seq<Rune>>, malformed: seq<Rune> -> bool) returns (events: seq<Event>, error: Option<Error>)
    ensures events == Consumed(Concat(chunks)) && error == FinalError(Concat(chunks), malformed)
  {
    hide Encode, Split, FirstError, Consumed, Tail, Bytes;
    var reader := new StdoutReader(malformed);
    for i := 0 to |chunks|
      invariant fresh(reader) && reader.Valid() && reader.malformed == malformed && reader.read == Concat(chunks[..i])
    {
      assert chunks[..i + 1][..i] == chunks[..i];
      reader.Consume(chunks[i]);
    }
    assert chunks[..|chunks|] == chunks;
    events, error := reader.events, reader.error;
    EmptyFits();
    if error.None? && (reader.pending != [] || reader.discarding) {
      error := Some(PartialRecord);
    }
  }

  lemma EmptyFits()
    ensures Bytes([]) == 0
  {
  }

  // ---- JSONL records from native frames ----

  const LF: Byte := 10
  const CR: Byte := 13

  /** Length of the first line of `bytes.splitlines(keepends=True)`, which also ends lines at a return. */
  function LineLength(bs: seq<Byte>): (n: nat)
    requires bs != []
    ensures 0 < n <= |bs| && LF !in bs[..n - 1]
  {
    if bs[0] == LF then 1
    else if bs[0] == CR then (if |bs| > 1 && bs[1] == LF then 2 else 1)
    else if |bs| == 1 then 1
    else
      var n := LineLength(bs[1..]);
      assert bs[..n] == [bs[0]] + bs[1..][..n - 1];
      n + 1
  }

  /** A record the consumer takes: within its bound, and one `_record` accepts. */
  predicate Good(line: seq<Byte>, parses: seq<Byte> -> bool) {
    |line| + 1 <= MAX_RECORD_BYTES && parses(line + [LF])
  }

  /** The records up to the first one that is over-long or does not parse. */
  function Taken(lines: seq<seq<Byte>>, parses: seq<Byte> -> bool): seq<seq<Byte>> {
    if lines == [] then []
    else
      var earlier := Taken(lines[..|lines| - 1], parses);
      if |earlier| == |lines| - 1 && Good(lines[|lines| - 1], parses) then earlier + [lines[|lines| - 1] + [LF]]
      else earlier
  }

  function Records(text: seq<Byte>, parses: seq<Byte> -> bool): seq<seq<Byte>> {
    Taken(Ended(text, LF), parses)
  }

  predicate Failed(text: seq<Byte>, parses: seq<Byte> -> bool) {
    |Records(text, parses)| < |Ended(text, LF)| || |Tail(text, LF)| > MAX_RECORD_BYTES
  }

  lemma {:induction false} TakenIsPrefix(lines: seq<seq<Byte>>, parses: seq<Byte> -> bool)
    ensures |Taken(lines, parses)| <= |lines|
  {
    if lines != [] { TakenIsPrefix(lines[..|lines| - 1], parses); }
  }

  lemma TakenSnoc(lines: seq<seq<Byte>>, line: seq<Byte>, parses: seq<Byte> -> bool)
    ensures Taken(lines + [line], parses) ==
            Taken(lines, parses) + if |Taken(lines, parses)| == |lines| && Good(line, parses) then [line + [LF]] else []
  {
    assert (lines + [line])[..|lines|] == lines;
  }

  /**
   The records given are the first lines of the text, each with its newline: all of them if each
   fits one mebibyte and parses, and otherwise those before the first that does not.
   */
  lemma {:induction false} RecordsAreTheFirstGoodLines(lines: seq<seq<Byte>>, parses: seq<Byte> -> bool)
    ensures var rs := Taken(lines, parses);
            && |rs| <= |lines|
            && (forall i :: 0 <= i < |rs| ==> rs[i] == lines[i] + [10] && |rs[i]| <= 1048576 && parses(rs[i]))
            && (|rs| < |lines| ==> |lines[|rs|]| + 1 > 1048576 || !parses(lines[|rs|] + [10]))
    decreases |lines|
  {
    if lines != [] {
      RecordsAreTheFirstGoodLines(lines[..|lines| - 1], parses);
    }
  }

  /** The traversal fails exactly for a complete line that is over-long or does not parse, or an over-long unfinished one. */
  lemma FailedExactly(text: seq<Byte>, parses: seq<Byte> -> bool)
    ensures Failed(text, parses) <==>
              || (exists i :: 0 <= i < |Ended(text, LF)| && !(|Ended(text, LF)[i]| + 1 <= 1048576 && parses(Ended(text, LF)[i] + [10])))
              || |Tail(text, LF)| > 1048576
  {
    hide Split, Taken, Ended, Tail;
    var lines := Ended(text, LF);
    RecordsAreTheFirstGoodLines(lines, parses);
    if |Taken(lines, parses)| == |lines| {
      assert forall i :: 0 <= i < |lines| ==> Taken(lines, parses)[i] == lines[i] + [10];
    }
  }

  /** A failed reader stays failed and has already given every record it will give. */
  lemma {:induction false} FailedStays(text: seq<Byte>, more: seq<Byte>, parses: seq<Byte> -> bool)
    requires Failed(text, parses)
    ensures Failed(text + more, parses) && Records(text + more, parses) == Records(text, parses)
    decreases |more|
  {
    hide Split, Taken, Ended, Tail, Good;
    if more == [] {
      assert text + more == text;
    } else {
      var n := |more| - 1;
      FailedStays(text, more[..n], parses);
      var before := text + more[..n];
      assert text + more == before + [more[n]];
      TakenIsPrefix(Ended(before, LF), parses);
      if more[n] == LF {
        SplitBreak(before, LF);
        TakenSnoc(Ended(before, LF), Tail(before, LF), parses);
        LongIsNotGood(Tail(before, LF), parses);
      } else {
        SplitMore(before, [more[n]], LF);
      }
    }
  }

  lemma LongIsNotGood(line: seq<Byte>, parses: seq<Byte> -> bool)
    ensures |line| > MAX_RECORD_BYTES ==> !Good(line, parses)
  {
  }

  class NativeRecords {
    const parses: seq<Byte> -> bool
    var pending: seq<Byte>
    var records: seq<seq<Byte>>
    var failed: bool
    ghost var read: seq<Byte>

    ghost predicate Valid()
      reads this
    {
      && records == Records(read, parses) && failed == Failed(read, parses)
      && (!failed ==> pending == Tail(read, LF))
    }

    constructor (parses: seq<Byte> -> bool)
      ensures Valid() && read == [] && this.parses == parses
    {
      this.parses := parses;
      pending, records, failed, read := [], [], false, [];
    }

    /** One frame's bytes; after a failure the traversal has ended and frames change nothing. */
    method Frame(chunk: seq<Byte>)
      requires Valid()
      modifies this
      ensures Valid() && read == old(read) + chunk
    {
      hide Split, Taken, Ended, Tail, Good, Records, Failed;
      var rest := chunk;
      while rest != [] && !failed
        invariant Valid() && read + rest == old(read) + chunk
        decreases |rest|
      {
        var n := LineLength(rest);
        assert rest == rest[..n] + rest[n..];
        Part(rest[..n]);
        rest := rest[n..];
      }
      if failed {
        FailedStays(read, rest, parses);
      } else {
        assert read + rest == read;
      }
      read := read + rest;
    }

    method Part(part: seq<Byte>)
      requires Valid() && !failed && part != [] && LF !in part[..|part| - 1]
      modifies this
      ensures Valid() && read == old(read) + part
    {
      hide Split, Taken, Ended, Tail;
      var n := |part| - 1;
      read := read + part;
      assert part == part[..n] + [part[n]];
      assert pending + part == pending + part[..n] + [part[n]];
      TakenIsPrefix(Ended(old(read), LF), parses);
      if part[n] == LF {
        assert read == old(read) + part[..n] + [LF];
        SplitLine(old(read), part[..n], LF);
        TakenSnoc(Ended(old(read), LF), pending + part[..n], parses);
      } else {
        SplitMore(old(read), part, LF);
      }
      if |pending| + |part| > MAX_RECORD_BYTES {
        failed := true;
        return;
      }
      pending := pending + part;
      if part[n] == LF {
        if !parses(pending) {
          failed := true;
          return;
        }
        records := records + [pending];
        pending := [];
      }
    }
  }

  datatype Ending = EndOfSource | PartialJsonl | Unreadable | BudgetExhausted | BadBudget

  const MAX_PAGES: nat := 4096

  /** A validated native page: the bytes of its frames, and whether the source ends here for now. */
  datatype Page = Page(frames: seq<seq<Byte>>, atEnd: bool)

  /** The bytes of some pages in order, whatever pages and frames they come in. */
  function PageBytes(pages: seq<Page>): seq<Byte> {
    if pages == [] then [] else PageBytes(pages[..|pages| - 1]) + Concat(pages[|pages| - 1].frames)
  }

  /** How many of at most `budget` pages are read: up to the first that ends the source. */
  function PagesRead(pages: seq<Page>, budget: nat): (n: nat)
    ensures n <= |pages| && n <= budget
    ensures forall i :: 0 <= i < n - 1 ==> !pages[i].atEnd
    ensures n < |pages| && n < budget ==> n > 0 && pages[n - 1].atEnd
    decreases budget
  {
    if pages == [] || budget == 0 then 0
    else if pages[0].atEnd then 1
    else 1 + PagesRead(pages[1..], budget - 1)
  }

  /** What the traversal of a source reports when its last page has been read. */
  ghost predicate IsTraversal(text: seq<Byte>, sealed: bool, parses: seq<Byte> -> bool,
                              records: seq<seq<Byte>>, ending: Ending) {
    var tail := Tail(text, LF);
    if Failed(text, parses) then records == Records(text, parses) && ending == Unreadable
    else if tail == [] then records == Records(text, parses) && ending == EndOfSource
    else if !sealed then records == Records(text, parses) && ending == PartialJsonl
    else if parses(tail) then records == Records(text, parses) + [tail] && ending == EndOfSource
    else records == Records(text, parses) && ending == Unreadable
  }

  /**
   The whole traversal: it depends on the bytes of the pages it reads, on how that reading ended
   and on the seal, never on the framing. Pages that stop coming before one ends the source, or
   before the budget does, are a client that failed.
   */
  ghost predicate IsBounded(text: seq<Byte>, ended: bool, spent: bool, sealed: bool, parses: seq<Byte> -> bool,
                            records: seq<seq<Byte>>, ending: Ending) {
    if ended then IsTraversal(text, sealed, parses, records, ending)
    else
      && records == Records(text, parses)
      && ending == if spent && !Failed(text, parses) then BudgetExhausted else Unreadable
  }

  /** The records that are left when the last page has been read. */
  method Finish(reader: NativeRecords, sealed: bool) returns (records: seq<seq<Byte>>, ending: Ending)
    requires reader.Valid()
    ensures IsTraversal(reader.read, sealed, reader.parses, records, ending)
  {
    hide Split, Taken, Ended, Tail, Good, Records, Failed;
    records := reader.records;
    if reader.failed {
      ending := Unreadable;
    } else if reader.pending == [] {
      ending := EndOfSource;
    } else if !sealed {
      ending := PartialJsonl;
    } else if reader.parses(reader.pending) {
      records, ending := records + [reader.pending], EndOfSource;
    } else {
      ending := Unreadable;
    }
  }

  /** `NativeRecords.__iter__` over the pages the client answers with, one budgeted pass. */
  method Traverse(pages: seq<Page>, maxPages: int, sealed: bool, parses: seq<Byte> -> bool)
    returns (records: seq<seq<Byte>>, ending: Ending)
    ensures !(1 <= maxPages <= MAX_PAGES) ==> records == [] && ending == BadBudget
    ensures 1 <= maxPages <= MAX_PAGES ==>
              var n := PagesRead(pages, maxPages);
              IsBounded(PageBytes(pages[..n]), n > 0 && pages[n - 1].atEnd, n == maxPages, sealed, parses, records, ending)
  {
    hide Split, Taken, Ended, Tail, Good, Records, Failed, IsTraversal, PageBytes, PagesRead;
    if !(1 <= maxPages <= MAX_PAGES) {
      return [], BadBudget;
    }
    ghost var n := PagesRead(pages, maxPages);
    var reader := new NativeRecords(parses);
    var k := 0;
    NoPages();
    while k < maxPages && k < |pages|
      invariant 0 <= k <= n && (k == n ==> k == |pages| || k == maxPages) && (k > 0 ==> !pages[k - 1].atEnd)
      invariant fresh(reader) && reader.Valid() && reader.parses == parses && reader.read == PageBytes(pages[..k])
    {
      ReadPage(reader, pages[k].frames);
      PageBytesNext(pages, k);
      k := k + 1;
      if pages[k - 1].atEnd {
        assert k == n;
        records, ending := Finish(reader, sealed);
        return;
      }
    }
    records := reader.records;
    ending := if k == maxPages && !reader.failed then BudgetExhausted else Unreadable;
  }

  lemma NoPages()
    ensures PageBytes([]) == []
  {
  }

  lemma PageBytesNext(pages: seq<Page>, k: nat)
    requires k < |pages|
    ensures PageBytes(pages[..k + 1]) == PageBytes(pages[..k]) + Concat(pages[k].frames)
  {
    assert pages[..k + 1][..k] == pages[..k];
  }

  method ReadPage(reader: NativeRecords, frames: seq<seq<Byte>>)
    requires reader.Valid()
    modifies reader
    ensures reader.Valid() && reader.read == old(reader.read) + Concat(frames)
  {
    hide Split, Taken, Ended, Tail, Good, Records, Failed;
    assert reader.read + [] == reader.read;
    for i := 0 to |frames|
      invariant reader.Valid() && reader.read == old(reader.read) + Concat(frames[..i])
    {
      assert frames[..i + 1][..i] == frames[..i];
      reader.Frame(frames[i]);
      Assoc(old(reader.read), Concat(frames[..i]), frames[i]);
    }
    assert frames[..|frames|] == frames;
  }
}
