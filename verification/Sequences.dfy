/** Concatenation of pieces, as streams of frames and chunks are made of. */
module Sequences {
  lemma Assoc<T>(a: seq<T>, b: seq<T>, c: seq<T>)
    ensures a + b + c == a + (b + c)
  {
  }

  function Concat<T>(chunks: seq<seq<T>>): seq<T> {
    if chunks == [] then [] else Concat(chunks[..|chunks| - 1]) + chunks[|chunks| - 1]
  }

  lemma {:induction false} ConcatPrefix<T>(chunks: seq<seq<T>>, k: nat) returns (rest: seq<T>)
    requires k <= |chunks|
    ensures Concat(chunks) == Concat(chunks[..k]) + rest
    decreases |chunks| - k
  {
    if k == |chunks| {
      assert chunks[..k] == chunks;
      rest := [];
    } else {
      assert chunks[..k + 1][..k] == chunks[..k];
      rest := ConcatPrefix(chunks, k + 1);
      Assoc(Concat(chunks[..k]), chunks[k], rest);
      rest := chunks[k] + rest;
    }
  }
}
