/** Re-cutting the encrypted stream into multipart parts of one size, whatever the packet boundaries. */
module Repartition {
  import opened Bytes

  datatype Part = Part(partNumber: nat, body: Bytes)

  /** Parts are numbered from one, in order. */
  function Numbered(bodies: seq<Bytes>): (parts: seq<Part>)
    ensures |parts| == |bodies|
  {
    seq(|bodies|, i requires 0 <= i < |bodies| => Part(i + 1, bodies[i]))
  }

  lemma TakeOneMore(pieces: seq<Bytes>, i: nat)
    requires i < |pieces|
    ensures Flatten(pieces[..i + 1]) == Flatten(pieces[..i]) + pieces[i]
  {
    FlattenSnoc(pieces[..i], pieces[i]);
    assert pieces[..i] + [pieces[i]] == pieces[..i + 1];
  }

  lemma Regroup(a: Bytes, b: Bytes, c: Bytes, d: Bytes, e: Bytes)
    requires b + c == d + e
    ensures (a + b) + c == (a + d) + e
  {
    assert (a + b) + c == a + (b + c);
    assert (a + d) + e == a + (d + e);
  }

  /** One more piece of the source has come in, and `full` parts have gone out. */
  lemma MoreParts(source: seq<Bytes>, i: nat, bodies: seq<Bytes>, before: Bytes, full: seq<Bytes>, after: Bytes)
    requires i < |source| && Flatten(source[..i]) == Flatten(bodies) + before
    requires before + source[i] == Flatten(full) + after
    ensures Flatten(source[..i + 1]) == Flatten(bodies + full) + after
  {
    TakeOneMore(source, i);
    FlattenAppend(bodies, full);
    Regroup(Flatten(bodies), before, source[i], Flatten(full), after);
  }

  lemma NumberedAppend(bodies: seq<Bytes>, full: seq<Bytes>)
    ensures Numbered(bodies) + seq(|full|, i requires 0 <= i < |full| => Part(|bodies| + 1 + i, full[i]))
            == Numbered(bodies + full)
  {
  }

  /** The last, shorter part completes the even cut. */
  lemma LastPart(source: Bytes, bodies: seq<Bytes>, rest: Bytes, partSize: nat)
    requires partSize > |rest| && source == Flatten(bodies) + rest
    requires forall j :: 0 <= j < |bodies| ==> |bodies[j]| == partSize
    ensures Cut(source, partSize) == if rest == [] then bodies else bodies + [rest]
  {
    var all := if rest == [] then bodies else bodies + [rest];
    if rest != [] {
      FlattenSnoc(bodies, rest);
    } else {
      assert Flatten(bodies) + [] == Flatten(bodies);
    }
    EvenCutIsUnique(all, partSize);
  }

  /** Taking the first `k` bytes of the first piece moves them from what is pending to what is written. */
  lemma TakeFront(all: Bytes, written: Bytes, pending: seq<Bytes>, k: nat)
    requires |pending| > 0 && k <= |pending[0]| && all == written + Flatten(pending)
    ensures all == (written + pending[0][..k]) + Flatten(pending[0 := pending[0][k..]])
  {
    var piece, rest := pending[0], pending[1..];
    assert pending[0 := piece[k..]][1..] == rest;
    assert Flatten(pending) == piece + Flatten(rest);
    assert Flatten(pending[0 := piece[k..]]) == piece[k..] + Flatten(rest);
    assert piece == piece[..k] + piece[k..];
  }

  lemma TakeWhole(all: Bytes, written: Bytes, pending: seq<Bytes>)
    requires |pending| > 0 && all == written + Flatten(pending)
    ensures all == (written + pending[0]) + Flatten(pending[1..])
  {
  }

  class Repartitioner {
    var pending: seq<Bytes>
    var pendingLength: nat
    var partNumber: nat

    constructor ()
      ensures Valid() && pending == [] && partNumber == 1
    {
      pending, pendingLength, partNumber := [], 0, 1;
    }

    /** No empty piece is ever buffered. */
    ghost predicate Valid()
      reads this
    {
      && pendingLength == |Flatten(pending)|
      && forall piece :: piece in pending ==> |piece| > 0
    }

    /** Takes the first `length` buffered bytes out into one buffer. */
    method Take(length: nat) returns (out: Bytes)
      requires Valid() && length <= pendingLength
      modifies this`pending, this`pendingLength
      ensures Valid()
      ensures |out| == length && old(Flatten(pending)) == out + Flatten(pending)
    {
      ghost var all := Flatten(pending);
      var buffer := new byte[length](_ => 0);
      var offset := 0;
      while offset < length
        invariant 0 <= offset <= length <= |all|
        invariant pendingLength == old(pendingLength) && partNumber == old(partNumber)
        invariant forall piece :: piece in pending ==> |piece| > 0
        invariant all == buffer[..offset] + Flatten(pending)
      {
        var piece, need := pending[0], length - offset;
        var taken := Min(|piece|, need);
        ghost var before := buffer[..offset];
        SetBytes(buffer, offset, piece[..taken]);
        if |piece| <= need {
          TakeWhole(all, before, pending);
          assert piece[..taken] == piece;
          pending := pending[1..];
        } else {
          TakeFront(all, before, pending, need);
          pending := pending[0 := piece[need..]];
        }
        offset := offset + taken;
      }
      pendingLength := pendingLength - length;
      out := buffer[..];
      assert out == buffer[..offset];
    }

    method Push(piece: Bytes)
      requires Valid()
      modifies this`pending, this`pendingLength
      ensures Valid() && Flatten(pending) == old(Flatten(pending)) + piece
    {
      if |piece| > 0 {
        FlattenSnoc(pending, piece);
        pending := pending + [piece];
        pendingLength := pendingLength + |piece|;
      }
    }

    /** Yields every full part that is buffered. */
    method YieldFullParts(partSize: nat) returns (bodies: seq<Bytes>, parts: seq<Part>)
      requires Valid() && partSize > 0
      modifies this
      ensures Valid() && pendingLength < partSize
      ensures (forall i :: 0 <= i < |bodies| ==> |bodies[i]| == partSize)
      ensures old(Flatten(pending)) == Flatten(bodies) + Flatten(pending)
      ensures partNumber == old(partNumber) + |bodies|
      ensures parts == seq(|bodies|, i requires 0 <= i < |bodies| => Part(old(partNumber) + i, bodies[i]))
    {
      bodies, parts := [], [];
      while pendingLength >= partSize
        invariant Valid()
        invariant forall i :: 0 <= i < |bodies| ==> |bodies[i]| == partSize
        invariant old(Flatten(pending)) == Flatten(bodies) + Flatten(pending)
        invariant partNumber == old(partNumber) + |bodies|
        invariant parts == seq(|bodies|, i requires 0 <= i < |bodies| => Part(old(partNumber) + i, bodies[i]))
        decreases pendingLength
      {
        var body := Take(partSize);
        FlattenSnoc(bodies, body);
        parts, bodies := parts + [Part(partNumber, body)], bodies + [body];
        partNumber := partNumber + 1;
      }
    }

    /**
     * The whole iteration. When the source throws (`broken`), only the full parts came out; otherwise
     * the parts are the even cut of the source bytes, numbered from one.
     */
    method Repartition(source: seq<Bytes>, broken: bool, partSize: nat)
      returns (parts: seq<Part>, ghost bodies: seq<Bytes>)
      requires Valid() && pending == [] && partNumber == 1 && partSize > 0
      modifies this
      ensures parts == Numbered(bodies)
      ensures !broken ==> parts == Numbered(Cut(Flatten(source), partSize))
      ensures broken ==> (forall i :: 0 <= i < |bodies| ==> |bodies[i]| == partSize)
      ensures broken ==> Flatten(bodies) <= Flatten(source) && |Flatten(source)| - |Flatten(bodies)| < partSize
    {
      bodies, parts := [], [];
      var i := 0;
      assert source[..0] == [];
      while i < |source|
        invariant 0 <= i <= |source| && Valid() && pendingLength < partSize
        invariant forall j :: 0 <= j < |bodies| ==> |bodies[j]| == partSize
        invariant Flatten(source[..i]) == Flatten(bodies) + Flatten(pending)
        invariant partNumber == |bodies| + 1 && parts == Numbered(bodies)
      {
        ghost var before := Flatten(pending);
        Push(source[i]);
        var full, fullParts := YieldFullParts(partSize);
        MoreParts(source, i, bodies, before, full, Flatten(pending));
        NumberedAppend(bodies, full);
        bodies, parts := bodies + full, parts + fullParts;
        i := i + 1;
      }
      assert source[..i] == source;
      if !broken {
        ghost var rest := Flatten(pending);
        LastPart(Flatten(source), bodies, rest, partSize);
        if pendingLength > 0 {
          var body := Take(pendingLength);
          assert body == rest;
          NumberedAppend(bodies, [body]);
          parts, bodies := parts + [Part(partNumber, body)], bodies + [body];
        }
      }
    }
  }
}
