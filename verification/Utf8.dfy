/**
 UTF-8 as the evidence index relies on it (section 3 and the syntax table of section 4 of
 RFC 3629): encoding, the incremental decoder that keeps an incomplete last character
 pending, and the self-synchronisation property that makes byte search and character
 search agree.
 */
module Utf8 {
  import opened Sequences

  type Byte = b: int | 0 <= b < 0x100
  type Rune = r: int | 0 <= r < 0xD800 || 0xE000 <= r <= 0x10FFFF

  /** `byte & 0xC0 == 0x80` */
  predicate Continuation(b: Byte) {
    0x80 <= b < 0xC0
  }

  function Encode(r: Rune): (bs: seq<Byte>)
    ensures 1 <= |bs| <= 4
    ensures !Continuation(bs[0])
    ensures forall i :: 0 < i < |bs| ==> Continuation(bs[i])
  {
    if r < 0x80 then [r]
    else if r < 0x800 then [0xC0 + r / 0x40, 0x80 + r % 0x40]
    else if r < 0x1_0000 then [0xE0 + r / 0x1000, 0x80 + r / 0x40 % 0x40, 0x80 + r % 0x40]
    else [0xF0 + r / 0x4_0000, 0x80 + r / 0x1000 % 0x40, 0x80 + r / 0x40 % 0x40, 0x80 + r % 0x40]
  }

  function EncodeAll(rs: seq<Rune>): seq<Byte> {
    if rs == [] then [] else Encode(rs[0]) + EncodeAll(rs[1..])
  }

  // ---- decoding ----

  datatype Head = Complete(rune: Rune, width: nat) | Incomplete | Malformed

  /** The length a lead byte announces; 0 for a byte that can start no character. */
  function Width(lead: Byte): nat {
    if lead < 0x80 then 1
    else if lead < 0xC2 then 0
    else if lead < 0xE0 then 2
    else if lead < 0xF0 then 3
    else if lead < 0xF5 then 4
    else 0
  }

  /** The second byte excludes overlong forms, surrogates and values past 0x10FFFF. */
  predicate SecondAllowed(lead: Byte, second: Byte) {
    && Continuation(second)
    && (lead == 0xE0 ==> second >= 0xA0)
    && (lead == 0xED ==> second < 0xA0)
    && (lead == 0xF0 ==> second >= 0x90)
    && (lead == 0xF4 ==> second < 0x90)
  }

  /** One whole well-formed character, as the syntax table of RFC 3629 lists them. */
  predicate WellFormed(bs: seq<Byte>) {
    && 1 <= |bs| <= 4 && Width(bs[0]) == |bs|
    && (|bs| > 1 ==> SecondAllowed(bs[0], bs[1]))
    && (|bs| > 2 ==> Continuation(bs[2]))
    && (|bs| > 3 ==> Continuation(bs[3]))
  }

  function Value(bs: seq<Byte>): Rune
    requires WellFormed(bs)
  {
    var b0: int := bs[0];
    if |bs| == 1 then b0
    else
      var b1: int := bs[1];
      if |bs| == 2 then (b0 - 0xC0) * 0x40 + (b1 - 0x80)
      else
        var b2: int := bs[2];
        if |bs| == 3 then (b0 - 0xE0) * 0x1000 + (b1 - 0x80) * 0x40 + (b2 - 0x80)
        else
          var b3: int := bs[3];
          (b0 - 0xF0) * 0x4_0000 + (b1 - 0x80) * 0x1000 + (b2 - 0x80) * 0x40 + (b3 - 0x80)
  }

  /** Base-64 digits of a code point, most significant first. */
  lemma Digits(r: nat)
    ensures r == r / 0x40 * 0x40 + r % 0x40
    ensures r / 0x40 == r / 0x1000 * 0x40 + r / 0x40 % 0x40
    ensures r / 0x1000 == r / 0x4_0000 * 0x40 + r / 0x1000 % 0x40
  {
    assert r / 0x40 / 0x40 == r / 0x1000;
    assert r / 0x1000 / 0x40 == r / 0x4_0000;
  }

  lemma DigitsOf(high: nat, low: nat)
    requires low < 0x40
    ensures (high * 0x40 + low) / 0x40 == high && (high * 0x40 + low) % 0x40 == low
  {
  }

  lemma EncodedIsWellFormed(r: Rune)
    ensures WellFormed(Encode(r)) && Value(Encode(r)) == r
  {
    Digits(r);
    var low, mid, top := r % 0x40, r / 0x40 % 0x40, r / 0x1000 % 0x40;
    if r < 0x80 {
    } else if r < 0x800 {
      assert r / 0x40 < 0x20;
    } else if r < 0x1_0000 {
      assert r / 0x1000 < 0x10;
      assert r == r / 0x1000 * 0x1000 + mid * 0x40 + low;
    } else {
      assert r / 0x4_0000 < 5;
      assert r == r / 0x4_0000 * 0x4_0000 + top * 0x1000 + mid * 0x40 + low;
    }
  }

  lemma WellFormedIsEncoded(bs: seq<Byte>)
    requires WellFormed(bs)
    ensures Encode(Value(bs)) == bs
  {
    var v: int := Value(bs);
    if |bs| == 2 {
      DigitsOf(bs[0] - 0xC0, bs[1] - 0x80);
    } else if |bs| == 3 {
      var h: nat := bs[0] - 0xE0;
      DigitsOf(h * 0x40 + (bs[1] - 0x80), bs[2] - 0x80);
      DigitsOf(h, bs[1] - 0x80);
      assert v / 0x1000 == v / 0x40 / 0x40;
    } else if |bs| == 4 {
      var h: nat := bs[0] - 0xF0;
      DigitsOf((h * 0x40 + (bs[1] - 0x80)) * 0x40 + (bs[2] - 0x80), bs[3] - 0x80);
      DigitsOf(h * 0x40 + (bs[1] - 0x80), bs[2] - 0x80);
      DigitsOf(h, bs[1] - 0x80);
      assert v / 0x1000 == v / 0x40 / 0x40;
      assert v / 0x4_0000 == v / 0x40 / 0x40 / 0x40;
    }
  }

  function DecodeHead(bs: seq<Byte>): Head
    requires bs != []
  {
    var w := Width(bs[0]);
    if w == 0 then Malformed
    else if w > 1 && |bs| > 1 && !SecondAllowed(bs[0], bs[1]) then Malformed
    else if w > 2 && |bs| > 2 && !Continuation(bs[2]) then Malformed
    else if w > 3 && |bs| > 3 && !Continuation(bs[3]) then Malformed
    else if |bs| < w then Incomplete
    else Complete(Value(bs[..w]), w)
  }

  datatype Decoded = Text(runes: seq<Rune>, pending: seq<Byte>) | Invalid

  /** The incremental decoder with `final=False`: its text and the bytes it still holds back. */
  function Decode(bs: seq<Byte>): (d: Decoded)
    ensures d.Text? ==> |d.pending| <= |bs|
  {
    if bs == [] then Text([], [])
    else match DecodeHead(bs)
      case Malformed => Invalid
      case Incomplete => Text([], bs)
      case Complete(r, w) =>
        match Decode(bs[w..])
        case Invalid => Invalid
        case Text(rs, pending) => Text([r] + rs, pending)
  }

  /** Bytes that are a proper, possibly empty, beginning of one character. */
  ghost predicate Partial(bs: seq<Byte>) {
    bs == [] || exists r: Rune :: |bs| < |Encode(r)| && bs == Encode(r)[..|bs|]
  }

  lemma DecodeHeadOfEncoded(r: Rune, rest: seq<Byte>)
    ensures DecodeHead(Encode(r) + rest) == Complete(r, |Encode(r)|)
  {
    var e := Encode(r);
    EncodedIsWellFormed(r);
    assert (e + rest)[..|e|] == e;
  }

  lemma DecodeHeadOfPartial(r: Rune, k: nat)
    requires 0 < k < |Encode(r)|
    ensures DecodeHead(Encode(r)[..k]) == Incomplete
  {
    EncodedIsWellFormed(r);
  }

  /** What the decoder accepts is exactly what the encoder writes. */
  lemma DecodedHeadIsEncoded(bs: seq<Byte>)
    requires bs != [] && DecodeHead(bs).Complete?
    ensures var Complete(r, w) := DecodeHead(bs); 0 < w <= |bs| && bs[..w] == Encode(r)
  {
    var w := DecodeHead(bs).width;
    WellFormedIsEncoded(bs[..w]);
  }

  lemma {:induction false} DecodeOfEncoded(rs: seq<Rune>, tail: seq<Byte>)
    requires Partial(tail)
    ensures Decode(EncodeAll(rs) + tail) == Text(rs, tail)
  {
    hide Encode;
    if rs == [] {
      assert EncodeAll(rs) + tail == tail;
      if tail != [] {
        var r: Rune :| |tail| < |Encode(r)| && tail == Encode(r)[..|tail|];
        DecodeHeadOfPartial(r, |tail|);
      }
    } else {
      var e, rest := Encode(rs[0]), EncodeAll(rs[1..]) + tail;
      assert EncodeAll(rs) + tail == e + rest;
      DecodeHeadOfEncoded(rs[0], rest);
      assert (e + rest)[|e|..] == rest;
      DecodeOfEncoded(rs[1..], tail);
      assert [rs[0]] + rs[1..] == rs;
    }
  }

  lemma DecodeUnfolds(bs: seq<Byte>, rs: seq<Rune>, pending: seq<Byte>) returns (w: nat)
    requires bs != [] && DecodeHead(bs).Complete? && Decode(bs) == Text(rs, pending)
    ensures 0 < w <= |bs| && rs != [] && bs[..w] == Encode(rs[0])
    ensures DecodeHead(bs) == Complete(rs[0], w)
    ensures Decode(bs[w..]) == Text(rs[1..], pending)
  {
    w := DecodeHead(bs).width;
    DecodedHeadIsEncoded(bs);
  }

  lemma DecodeStops(bs: seq<Byte>, rs: seq<Rune>, pending: seq<Byte>)
    requires bs == [] || !DecodeHead(bs).Complete?
    requires Decode(bs) == Text(rs, pending)
    ensures bs == EncodeAll(rs) + pending
  {
  }

  lemma EncodedJoin(bs: seq<Byte>, w: nat, rs: seq<Rune>, pending: seq<Byte>)
    requires w <= |bs| && rs != [] && bs[..w] == Encode(rs[0])
    requires bs[w..] == EncodeAll(rs[1..]) + pending
    ensures bs == EncodeAll(rs) + pending
  {
    hide Encode;
    Assoc(Encode(rs[0]), EncodeAll(rs[1..]), pending);
    assert bs == bs[..w] + bs[w..];
  }

  /** Decoding loses nothing: text and pending bytes together are the input. */
  lemma {:induction false} DecodedIsEncoded(bs: seq<Byte>, rs: seq<Rune>, pending: seq<Byte>)
    requires Decode(bs) == Text(rs, pending)
    ensures bs == EncodeAll(rs) + pending
    decreases |bs|
  {
    if bs != [] && DecodeHead(bs).Complete? {
      var w := DecodeUnfolds(bs, rs, pending);
      DecodedIsEncoded(bs[w..], rs[1..], pending);
      EncodedJoin(bs, w, rs, pending);
    } else {
      DecodeStops(bs, rs, pending);
    }
  }

  /** More input after a complete head leaves that head as it is. */
  lemma HeadIgnoresRest(a: seq<Byte>, b: seq<Byte>)
    requires a != []
    ensures DecodeHead(a).Complete? ==> DecodeHead(a + b) == DecodeHead(a)
    ensures DecodeHead(a).Malformed? ==> DecodeHead(a + b).Malformed?
  {
    if DecodeHead(a).Complete? {
      var w := DecodeHead(a).width;
      assert (a + b)[..w] == a[..w];
    }
  }

  function Prepend(rs: seq<Rune>, d: Decoded): Decoded {
    match d
    case Invalid => Invalid
    case Text(more, pending) => Text(rs + more, pending)
  }

  /** Feeding the decoder in pieces is decoding the whole: only pending bytes carry over. */
  lemma {:induction false} DecodeContinues(a: seq<Byte>, b: seq<Byte>, rs: seq<Rune>, pending: seq<Byte>)
    requires Decode(a) == Text(rs, pending)
    ensures Decode(a + b) == Prepend(rs, Decode(pending + b))
    decreases |a|
  {
    hide DecodeHead;
    if a != [] && DecodeHead(a).Complete? {
      var w := DecodeUnfolds(a, rs, pending);
      HeadIgnoresRest(a, b);
      assert (a + b)[w..] == a[w..] + b;
      DecodeContinues(a[w..], b, rs[1..], pending);
      PrependCons(rs, Decode(pending + b));
    } else {
      assert rs == [] && pending == a;
      PrependNothing(Decode(pending + b));
    }
  }

  lemma PrependCons(rs: seq<Rune>, d: Decoded)
    requires rs != []
    ensures Prepend(rs, d) == Prepend([rs[0]], Prepend(rs[1..], d))
  {
    if d.Text? { assert rs + d.runes == [rs[0]] + (rs[1..] + d.runes); }
  }

  lemma PrependNothing(d: Decoded)
    ensures Prepend([], d) == d
  {
    if d.Text? { assert [] + d.runes == d.runes; }
  }

  lemma {:induction false} InvalidContinues(a: seq<Byte>, b: seq<Byte>)
    requires Decode(a) == Invalid
    ensures Decode(a + b) == Invalid
    decreases |a|
  {
    hide DecodeHead;
    HeadIgnoresRest(a, b);
    if DecodeHead(a).Complete? {
      DecodedHeadIsEncoded(a);
      var w := DecodeHead(a).width;
      assert (a + b)[w..] == a[w..] + b;
      InvalidContinues(a[w..], b);
    }
  }

  // ---- offsets ----

  lemma {:induction false} EncodeAllConcat(a: seq<Rune>, b: seq<Rune>)
    ensures EncodeAll(a + b) == EncodeAll(a) + EncodeAll(b)
  {
    hide Encode;
    if a == [] {
      assert a + b == b;
    } else {
      EncodeAllConcat(a[1..], b);
      assert (a + b)[0] == a[0] && (a + b)[1..] == a[1..] + b;
      Assoc(Encode(a[0]), EncodeAll(a[1..]), EncodeAll(b));
    }
  }

  /** Byte offset at which character `i` starts. */
  function Offset(cs: seq<Rune>, i: nat): nat
    requires i <= |cs|
  {
    |EncodeAll(cs[..i])|
  }

  lemma OffsetSlice(cs: seq<Rune>, i: nat, j: nat)
    requires i <= j <= |cs|
    ensures Offset(cs, i) <= Offset(cs, j) <= |EncodeAll(cs)|
    ensures EncodeAll(cs)[Offset(cs, i)..Offset(cs, j)] == EncodeAll(cs[i..j])
    ensures Offset(cs, j) == Offset(cs, i) + |EncodeAll(cs[i..j])|
  {
    hide Encode;
    assert cs == cs[..i] + cs[i..j] + cs[j..];
    assert cs[..j] == cs[..i] + cs[i..j];
    EncodeAllConcat(cs[..i] + cs[i..j], cs[j..]);
    EncodeAllConcat(cs[..i], cs[i..j]);
  }

  lemma OffsetNext(cs: seq<Rune>, i: nat)
    requires i < |cs|
    ensures Offset(cs, i + 1) == Offset(cs, i) + |Encode(cs[i])| <= |EncodeAll(cs)|
    ensures EncodeAll(cs)[Offset(cs, i)..Offset(cs, i + 1)] == Encode(cs[i])
  {
    hide Encode;
    OffsetSlice(cs, i, i + 1);
    assert cs[i..i + 1] == [cs[i]];
    assert EncodeAll([cs[i]]) == Encode(cs[i]) + EncodeAll([]);
  }

  lemma OffsetStrict(cs: seq<Rune>, i: nat, j: nat)
    requires i <= |cs| && j <= |cs|
    ensures i < j <==> Offset(cs, i) < Offset(cs, j)
  {
    hide Encode;
    if i < j {
      OffsetNext(cs, i);
      OffsetSlice(cs, i + 1, j);
    } else {
      OffsetSlice(cs, j, i);
    }
  }

  lemma OffsetEnds(cs: seq<Rune>)
    ensures Offset(cs, 0) == 0 && Offset(cs, |cs|) == |EncodeAll(cs)|
  {
    assert cs[..|cs|] == cs;
  }

  /** The last character boundary at or before byte `b`. */
  lemma {:induction false} FloorBoundary(cs: seq<Rune>, b: nat) returns (j: nat)
    requires b <= |EncodeAll(cs)|
    ensures j <= |cs| && Offset(cs, j) <= b
    ensures j < |cs| ==> b < Offset(cs, j + 1)
    ensures j == |cs| ==> b == Offset(cs, j)
  {
    OffsetEnds(cs);
    j := |cs|;
    while Offset(cs, j) > b
      invariant j <= |cs|
      invariant j < |cs| ==> b < Offset(cs, j + 1)
      invariant j == |cs| ==> b <= Offset(cs, j)
      decreases j
    {
      j := j - 1;
    }
  }

  lemma SliceIndex<T>(s: seq<T>, lo: nat, hi: nat, p: nat)
    requires lo <= p < hi <= |s|
    ensures s[p] == s[lo..hi][p - lo]
  {
  }

  /** Bytes strictly inside a character are continuation bytes. */
  lemma InsideCharacter(cs: seq<Rune>, i: nat, p: nat)
    requires i < |cs| && Offset(cs, i) < p < Offset(cs, i + 1)
    ensures p < |EncodeAll(cs)| && Continuation(EncodeAll(cs)[p])
  {
    hide Encode;
    OffsetNext(cs, i);
    SliceIndex(EncodeAll(cs), Offset(cs, i), Offset(cs, i + 1), p);
  }

  lemma LeadByte(cs: seq<Rune>, i: nat)
    requires i < |cs|
    ensures Offset(cs, i) < |EncodeAll(cs)| && !Continuation(EncodeAll(cs)[Offset(cs, i)])
  {
    hide Encode;
    OffsetNext(cs, i);
    SliceIndex(EncodeAll(cs), Offset(cs, i), Offset(cs, i + 1), Offset(cs, i));
  }

  // ---- self-synchronisation ----

  predicate OccursAt<T(==)>(text: seq<T>, query: seq<T>, p: nat) {
    p + |query| <= |text| && text[p..p + |query|] == query
  }

  /** If one encoded text begins another, the characters do too. */
  lemma {:induction false} EncodedPrefix(cs: seq<Rune>, q: seq<Rune>, rest: seq<Byte>)
    requires EncodeAll(cs) == EncodeAll(q) + rest
    ensures |q| <= |cs| && cs[..|q|] == q
    decreases |q|
  {
    hide Encode;
    if q != [] {
      var tail := EncodeAll(q[1..]) + rest;
      assert EncodeAll(cs) == Encode(q[0]) + tail;
      DecodeHeadOfEncoded(q[0], tail);
      assert cs != [];
      DecodeHeadOfEncoded(cs[0], EncodeAll(cs[1..]));
      assert EncodeAll(cs)[|Encode(q[0])|..] == tail;
      assert EncodeAll(cs)[|Encode(cs[0])|..] == EncodeAll(cs[1..]);
      EncodedPrefix(cs[1..], q[1..], rest);
      assert cs == [cs[0]] + cs[1..] && q == [q[0]] + q[1..];
    }
  }

  /** Every byte occurrence of an encoded query is a character occurrence. */
  lemma ByteMatchIsCharacterMatch(cs: seq<Rune>, q: seq<Rune>, p: nat) returns (i: nat)
    requires q != [] && OccursAt(EncodeAll(cs), EncodeAll(q), p)
    ensures i <= |cs| && p == Offset(cs, i) && OccursAt(cs, q, i)
    ensures Offset(cs, i + |q|) == p + |EncodeAll(q)|
  {
    hide Encode;
    var f, e := EncodeAll(cs), EncodeAll(q);
    i := FloorBoundary(cs, p);
    assert e[0] == Encode(q[0])[0];
    assert f[p] == f[p..p + |e|][0];
    if i == |cs| { OffsetEnds(cs); }
    if Offset(cs, i) < p { InsideCharacter(cs, i, p); }
    OffsetSlice(cs, i, |cs|);
    OffsetEnds(cs);
    assert EncodeAll(cs[i..]) == f[p..] by { assert cs[i..|cs|] == cs[i..]; }
    assert f[p..] == e + f[p + |e|..];
    EncodedPrefix(cs[i..], q, f[p + |e|..]);
    assert cs[i..][..|q|] == cs[i..i + |q|];
    OffsetSlice(cs, i, i + |q|);
  }

  lemma CharacterMatchIsByteMatch(cs: seq<Rune>, q: seq<Rune>, i: nat)
    requires OccursAt(cs, q, i)
    ensures OccursAt(EncodeAll(cs), EncodeAll(q), Offset(cs, i))
    ensures Offset(cs, i + |q|) == Offset(cs, i) + |EncodeAll(q)|
  {
    hide Encode;
    OffsetSlice(cs, i, i + |q|);
  }

  lemma {:induction false} EncodedLength(q: seq<Rune>)
    ensures |q| <= |EncodeAll(q)| <= 4 * |q|
  {
    if q != [] { EncodedLength(q[1..]); }
  }
}
