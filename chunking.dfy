/**
 * `chunk(arr, size)`: split a sequence into consecutive slices of at most
 * `size` elements. The handler uses it twice: for the identifier and class
 * lists of the "value in set" queries (groups of 10) and for the token list
 * of the multicast sends (groups of 500).
 */
module Chunking {
  import opened Seqs

  /**
   * The slices `chunk` produces: the first `size` elements (or all of them,
   * when fewer remain), then the slices of what is left.
   */
  function Chunks<T>(s: seq<T>, size: nat): (r: seq<seq<T>>)
    requires size > 0
    ensures forall k :: 0 <= k < |r| ==> 0 < |r[k]| <= size
    decreases |s|
  {
    if |s| == 0 then []
    else
      var n := if |s| < size then |s| else size;
      [s[..n]] + Chunks(s[n..], size)
  }

  /** Concatenating the slices gives back the input: nothing lost, duplicated or reordered. */
  lemma {:induction false} ChunksFlatten<T>(s: seq<T>, size: nat)
    requires size > 0
    ensures Flatten(Chunks(s, size)) == s
    decreases |s|
  {
    if |s| > 0 {
      var n := if |s| < size then |s| else size;
      var r := Chunks(s, size);
      assert r[0] == s[..n] && r[1..] == Chunks(s[n..], size);
      ChunksFlatten(s[n..], size);
      assert s[..n] + s[n..] == s;
    }
  }

  /** Every slice except the last is full. */
  lemma {:induction false} ChunksFull<T>(s: seq<T>, size: nat)
    requires size > 0
    ensures forall k :: 0 <= k < |Chunks(s, size)| - 1 ==> |Chunks(s, size)[k]| == size
    decreases |s|
  {
    if |s| > size {
      var r := Chunks(s, size);
      ChunksFull(s[size..], size);
      assert r[1..] == Chunks(s[size..], size);
    }
  }

  /** `chunk` returns ceil(|s| / size) slices; none at all for an empty input. */
  lemma {:induction false} ChunksCount<T>(s: seq<T>, size: nat)
    requires size > 0
    ensures |Chunks(s, size)| == (|s| + size - 1) / size
    ensures |Chunks(s, size)| == 0 <==> |s| == 0
    decreases |s|
  {
    if |s| == 0 {
      DivIs(size - 1, size, 0);
    } else if |s| <= size {
      DivIs(|s| + size - 1, size, 1);
    } else {
      var rest := s[size..];
      assert Chunks(s, size) == [s[..size]] + Chunks(rest, size);
      ChunksCount(rest, size);
      DivStep(|rest| + size - 1, size);
      assert |rest| + size - 1 + size == |s| + size - 1;
    }
  }

  /** Division pinned down by its bracketing multiples. */
  lemma DivIs(x: nat, d: nat, q: nat)
    requires d > 0
    requires q * d <= x < q * d + d
    ensures x / d == q
  {
    var p, r := x / d, x % d;
    assert x == p * d + r && 0 <= r < d;
    if p < q {
      MulLe(p + 1, q, d);
      assert false;
    } else if p > q {
      MulLe(q + 1, p, d);
      assert false;
    }
  }

  lemma MulLe(a: int, b: int, d: nat)
    requires a <= b
    ensures a * d <= b * d
  {
  }

  /** Adding the divisor adds one to the quotient. */
  lemma DivStep(x: nat, d: nat)
    requires d > 0
    ensures (x + d) / d == x / d + 1
  {
    var q := x / d;
    assert q * d <= x < q * d + d;
    assert (q + 1) * d == q * d + d;
    DivIs(x + d, d, q + 1);
  }

  /** A slice of `s` from `i`, empty once `i` has run past the end. */
  function Suffix<T>(s: seq<T>, i: nat): seq<T>
  {
    if i < |s| then s[i..] else []
  }

  /** One step of the loop: the slice at `i` heads the slices of the rest. */
  lemma ChunksStep<T>(arr: seq<T>, i: nat, size: nat)
    requires size > 0 && i < |arr|
    ensures Chunks(Suffix(arr, i), size)
         == [arr[i..if i + size < |arr| then i + size else |arr|]] + Chunks(Suffix(arr, i + size), size)
  {
    var end := if i + size < |arr| then i + size else |arr|;
    var rest := arr[i..];
    assert Chunks(rest, size) == [rest[..end - i]] + Chunks(rest[end - i..], size);
    assert rest[..end - i] == arr[i..end];
    assert rest[end - i..] == Suffix(arr, i + size);
  }

  /**
   * The loop of `chunk`: `i` advances by `size`, and each step pushes the
   * slice `arr.slice(i, i + size)`, whose end is clamped to the length.
   */
  method Chunk<T>(arr: seq<T>, size: nat) returns (out: seq<seq<T>>)
    requires size > 0
    ensures out == Chunks(arr, size)
    ensures Flatten(out) == arr
    ensures forall k :: 0 <= k < |out| ==> 0 < |out[k]| <= size
    ensures forall k :: 0 <= k < |out| - 1 ==> |out[k]| == size
    ensures |out| == (|arr| + size - 1) / size
  {
    out := [];
    var i: nat := 0;
    assert Suffix(arr, 0) == arr;
    while i < |arr|
      invariant out + Chunks(Suffix(arr, i), size) == Chunks(arr, size)
      decreases |arr| - i
    {
      var end := if i + size < |arr| then i + size else |arr|;
      ChunksStep(arr, i, size);
      ghost var tail := Chunks(Suffix(arr, i + size), size);
      assert out + [arr[i..end]] + tail == out + ([arr[i..end]] + tail);
      out := out + [arr[i..end]];
      i := i + size;
    }
    assert Suffix(arr, i) == [];
    assert out == Chunks(arr, size);
    ChunksFlatten(arr, size);
    ChunksFull(arr, size);
    ChunksCount(arr, size);
  }
}
