/** Byte strings, and the one way the program cuts a byte string into fixed-size pieces. */
module Bytes {

  type byte = x: int | 0 <= x < 256
  type Bytes = seq<byte>

  datatype Option<+T> = None | Some(value: T)

  function Min(a: int, b: int): int {
    if a < b then a else b
  }

  function Max(a: int, b: int): int {
    if a < b then b else a
  }

  /** `Math.ceil(n / size)` on non-negative integers. */
  function CeilDiv(n: nat, size: nat): (q: nat)
    requires size > 0
  {
    (n + size - 1) / size
  }

  function Flatten(pieces: seq<Bytes>): Bytes {
    if |pieces| == 0 then [] else pieces[0] + Flatten(pieces[1..])
  }

  lemma {:induction false} FlattenAppend(a: seq<Bytes>, b: seq<Bytes>)
    ensures Flatten(a + b) == Flatten(a) + Flatten(b)
  {
    if |a| == 0 {
      assert a + b == b;
    } else {
      FlattenAppend(a[1..], b);
      assert (a + b)[1..] == a[1..] + b;
      assert (a + b)[0] == a[0];
      assert a[0] + (Flatten(a[1..]) + Flatten(b)) == (a[0] + Flatten(a[1..])) + Flatten(b);
    }
  }

  lemma FlattenCons(piece: Bytes, rest: seq<Bytes>)
    ensures Flatten([piece] + rest) == piece + Flatten(rest)
  {
    assert ([piece] + rest)[1..] == rest;
  }

  lemma FlattenSnoc(a: seq<Bytes>, piece: Bytes)
    ensures Flatten(a + [piece]) == Flatten(a) + piece
  {
    FlattenAppend(a, [piece]);
    assert Flatten([piece]) == piece;
  }

  /** Cuts `b` into pieces of `size` bytes; only the last piece may be shorter, and none is empty. */
  function Cut(b: Bytes, size: nat): (pieces: seq<Bytes>)
    requires size > 0
    ensures |pieces| > 0 <==> |b| > 0
    decreases |b|
  {
    if |b| == 0 then []
    else if |b| <= size then [b]
    else [b[..size]] + Cut(b[size..], size)
  }

  lemma CutHead(b: Bytes, size: nat)
    requires size > 0 && |b| > 0
    ensures Cut(b, size) == [b[..Min(size, |b|)]] + Cut(b[Min(size, |b|)..], size)
  {
    if |b| <= size {
      assert b[..|b|] == b && b[|b|..] == [];
    }
  }

  lemma {:induction false} FlattenCut(b: Bytes, size: nat)
    requires size > 0
    ensures Flatten(Cut(b, size)) == b
    decreases |b|
  {
    if |b| > size {
      FlattenCut(b[size..], size);
      FlattenCons(b[..size], Cut(b[size..], size));
      assert b == b[..size] + b[size..];
    } else if |b| > 0 {
      FlattenCons(b, []);
      assert b + [] == b;
    }
  }

  /** Every piece but the last has exactly `size` bytes; the last has between one and `size`. */
  ghost predicate EvenlyCut(pieces: seq<Bytes>, size: nat) {
    && (forall i :: 0 <= i < |pieces| - 1 ==> |pieces[i]| == size)
    && (|pieces| > 0 ==> 0 < |pieces[|pieces| - 1]| <= size)
  }

  lemma {:induction false} CutIsEven(b: Bytes, size: nat)
    requires size > 0
    ensures EvenlyCut(Cut(b, size), size)
    decreases |b|
  {
    if |b| > size {
      var rest := Cut(b[size..], size);
      CutIsEven(b[size..], size);
      assert forall i :: 1 <= i < |rest| + 1 ==> Cut(b, size)[i] == rest[i - 1];
    }
  }

  /** The even cut of a byte string is unique: any list of that shape is the cut of its own bytes. */
  lemma {:induction false} EvenCutIsUnique(pieces: seq<Bytes>, size: nat)
    requires size > 0 && EvenlyCut(pieces, size)
    ensures Cut(Flatten(pieces), size) == pieces
  {
    if |pieces| == 1 {
      assert Flatten(pieces) == pieces[0];
    } else if |pieces| > 1 {
      var rest := pieces[1..];
      assert forall i :: 0 <= i < |rest| ==> rest[i] == pieces[i + 1];
      EvenCutIsUnique(rest, size);
      assert |rest[0]| > 0;
      assert |Flatten(rest)| > 0;
      assert Flatten(pieces)[..size] == pieces[0];
      assert Flatten(pieces)[size..] == Flatten(rest);
    }
  }

  lemma ProductGrows(a: nat, b: nat, c: nat)
    ensures a <= b ==> a * c <= b * c
  {
  }

  lemma QuotientIs(n: nat, size: nat, q: nat)
    requires size > 0 && q * size <= n < q * size + size
    ensures n / size == q
  {
    var d := n / size;
    ProductGrows(d + 1, q, size);
    ProductGrows(q + 1, d, size);
  }

  lemma CeilDivStep(n: nat, size: nat)
    requires size > 0
    ensures n == 0 ==> CeilDiv(n, size) == 0
    ensures 0 < n <= size ==> CeilDiv(n, size) == 1
    ensures n > size ==> CeilDiv(n, size) == 1 + CeilDiv(n - size, size)
  {
    if n <= size {
      QuotientIs(n + size - 1, size, if n == 0 then 0 else 1);
    } else {
      var q := CeilDiv(n - size, size);
      assert (n - 1) / size == q && n - size + size - 1 == n - 1;
      QuotientIs(n + size - 1, size, q + 1);
    }
  }

  lemma {:induction false} CutCount(b: Bytes, size: nat)
    requires size > 0
    ensures |Cut(b, size)| == CeilDiv(|b|, size)
    decreases |b|
  {
    CeilDivStep(|b|, size);
    if |b| > size {
      CutCount(b[size..], size);
    }
  }

  /** Piece `i` of a cut is the byte range that starts at `i * size`, clamped to the end. */
  lemma {:induction false} CutAt(b: Bytes, size: nat, i: nat)
    requires size > 0 && i < |Cut(b, size)|
    ensures i * size < |b|
    ensures Cut(b, size)[i] == b[i * size..Min(i * size + size, |b|)]
    decreases i
  {
    if i == 0 {
      CutHead(b, size);
    } else {
      var rest := b[size..];
      CutAt(rest, size, i - 1);
      var start := (i - 1) * size;
      assert i * size == start + size;
      SliceOfSuffix(b, size, start, Min(start + size, |rest|));
    }
  }

  lemma SliceOfSuffix(b: Bytes, k: nat, lo: nat, hi: nat)
    requires k <= |b| && lo <= hi <= |b| - k
    ensures b[k..][lo..hi] == b[k + lo..k + hi]
  {
  }

  lemma {:induction false} SubsetSize<T>(a: set<T>, b: set<T>)
    requires a <= b
    ensures |a| <= |b|
  {
    if a != {} {
      var x :| x in a;
      SubsetSize(a - {x}, b - {x});
    }
  }

  /** `buffer.set(src, offset)`. */
  method SetBytes(buffer: array<byte>, offset: nat, src: Bytes)
    requires offset + |src| <= buffer.Length
    modifies buffer
    ensures buffer[..offset + |src|] == old(buffer[..offset]) + src
  {
    forall k | 0 <= k < |src| {
      buffer[offset + k] := src[k];
    }
  }
}
