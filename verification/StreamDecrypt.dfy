/**
 * The receiving side: packet boundaries found by one byte of look-ahead in arbitrarily
 * fragmented input, the salted format tried first, the salt-free format as the fallback.
 */
module StreamDecrypt {
  import opened Bytes
  import opened Packet
  import opened Aead

  /** How the iteration ends: normally, or by one of the source's three kinds of exception. */
  datatype Outcome = Done | Corrupted | Truncated | ReadFailed

  datatype Decoded = Decoded(chunks: seq<Bytes>, outcome: Outcome) {
    function After(earlier: seq<Bytes>): Decoded {
      Decoded(earlier + chunks, outcome)
    }

    /** The closing comparison with the number of bytes the caller expects. */
    function CheckedAgainst(expected: Option<nat>): Decoded {
      if outcome.Done? && expected.Some? && expected.value != |Flatten(chunks)| then Decoded(chunks, Truncated)
      else this
    }
  }

  // ---- What decoding means, on the whole byte string ----

  function AadFor(salt: Option<Bytes>, index: nat, isLast: bool): Bytes {
    if salt.Some? then ChunkAad(salt.value, index, isLast) else []
  }

  /** A packet is full-size when at least one more byte follows it, and is otherwise the last one. */
  function DecodePackets(t: Table, salt: Option<Bytes>, index: nat, bytes: Bytes, broken: bool): (d: Decoded)
    decreases |bytes|
  {
    if |bytes| > PACKED_CHUNK_SIZE then
      match OpenPacket(t, bytes[..PACKED_CHUNK_SIZE], AadFor(salt, index, false))
      case None => Decoded([], Corrupted)
      case Some(plain) => DecodePackets(t, salt, index + 1, bytes[PACKED_CHUNK_SIZE..], broken).After([plain])
    else if broken then Decoded([], ReadFailed)
    else if |bytes| == 0 then Decoded([], Done)
    else
      match OpenPacket(t, bytes, AadFor(salt, index, true))
      case None => Decoded([], Corrupted)
      case Some(plain) => Decoded([plain], Done)
  }

  /** A first packet read behind a salt: its length, whether it is the last, and its plaintext if it opens. */
  datatype Head = Head(size: nat, isLast: bool, plain: Option<Bytes>)

  function SaltedHead(t: Table, bytes: Bytes): Head
    requires |bytes| > FILE_SALT_LENGTH
  {
    var available := |bytes| - FILE_SALT_LENGTH;
    var isLast := available <= PACKED_CHUNK_SIZE;
    var size := if isLast then available else PACKED_CHUNK_SIZE;
    var packet := bytes[FILE_SALT_LENGTH..FILE_SALT_LENGTH + size];
    Head(size, isLast, OpenPacket(t, packet, ChunkAad(bytes[..FILE_SALT_LENGTH], 0, isLast)))
  }

  predicate AcceptsSalted(t: Table, bytes: Bytes) {
    |bytes| > FILE_SALT_LENGTH && SaltedHead(t, bytes).plain.Some?
  }

  /** `broken` says that reading fails once all of `bytes` has arrived, instead of reporting the end. */
  function Decrypt(t: Table, bytes: Bytes, broken: bool, expected: Option<nat>): Decoded {
    if broken && |bytes| <= FILE_SALT_LENGTH + PACKED_CHUNK_SIZE then Decoded([], ReadFailed)
    else if |bytes| == 0 then
      Decoded([], if expected.Some? && expected.value != 0 then Truncated else Done)
    else if AcceptsSalted(t, bytes) then
      var head := SaltedHead(t, bytes);
      DecodePackets(t, Some(bytes[..FILE_SALT_LENGTH]), 1, bytes[FILE_SALT_LENGTH + head.size..], broken)
        .After([head.plain.value]).CheckedAgainst(expected)
    else
      DecodePackets(t, None, 0, bytes, broken).CheckedAgainst(expected)
  }

  lemma CopiedMore(pieces: seq<Bytes>, i: nat, before: Bytes, taken: nat)
    requires i < |pieces| && taken <= |pieces[i]| && Flatten(pieces[..i]) == before
    ensures before + pieces[i][..taken] <= Flatten(pieces)
    ensures taken == |pieces[i]| ==> Flatten(pieces[..i + 1]) == before + pieces[i][..taken]
  {
    assert pieces == pieces[..i] + ([pieces[i]] + pieces[i + 1..]);
    assert pieces[..i + 1] == pieces[..i] + [pieces[i]];
    FlattenAppend(pieces[..i], [pieces[i]] + pieces[i + 1..]);
    FlattenCons(pieces[i], pieces[i + 1..]);
    FlattenSnoc(pieces[..i], pieces[i]);
  }

  lemma DecodeEnd(t: Table, salt: Option<Bytes>, index: nat, bytes: Bytes, broken: bool, chunks: seq<Bytes>)
    requires |bytes| == 0 || (broken && |bytes| <= PACKED_CHUNK_SIZE)
    ensures DecodePackets(t, salt, index, bytes, broken).After(chunks)
            == Decoded(chunks, if broken then ReadFailed else Done)
  {
  }

  /** The last packet and a full one are consumed alike: the rest of the input decodes as if it stood alone. */
  lemma DecodeOne(t: Table, salt: Option<Bytes>, index: nat, bytes: Bytes, broken: bool, chunks: seq<Bytes>)
    requires |bytes| > 0 && (broken ==> |bytes| > PACKED_CHUNK_SIZE)
    ensures var size := Min(PACKED_CHUNK_SIZE, |bytes|);
            var plain := OpenPacket(t, bytes[..size], AadFor(salt, index, size == |bytes|));
            DecodePackets(t, salt, index, bytes, broken).After(chunks)
            == if plain.None? then Decoded(chunks, Corrupted)
               else DecodePackets(t, salt, index + 1, bytes[size..], broken).After(chunks + [plain.value])
  {
    var size := Min(PACKED_CHUNK_SIZE, |bytes|);
    assert size == |bytes| ==> bytes[..size] == bytes && bytes[size..] == [];
    var plain := OpenPacket(t, bytes[..size], AadFor(salt, index, size == |bytes|));
    if plain.Some? {
      var rest := DecodePackets(t, salt, index + 1, bytes[size..], broken);
      assert chunks + ([plain.value] + rest.chunks) == (chunks + [plain.value]) + rest.chunks;
    }
  }

  // ---- The program: buffered pieces, look-ahead, consumption ----

  datatype Bounds = Bounds(size: nat, isLast: bool)

  class Decryptor {
    // The reader: the pieces the network delivers, and how many have been read.
    const source: seq<Bytes>
    const broken: bool
    var position: nat

    var pending: seq<Bytes>
    var pendingLength: nat
    var streamDone: bool
    var decryptedTotal: nat

    constructor (source: seq<Bytes>, broken: bool)
      ensures Valid() && Rest() == Flatten(source) && decryptedTotal == 0
      ensures this.source == source && this.broken == broken
    {
      this.source, this.broken := source, broken;
      position, pending, pendingLength, streamDone, decryptedTotal := 0, [], 0, false, 0;
      new;
      assert source[0..] == source;
    }

    ghost predicate Valid()
      reads this
    {
      && position <= |source|
      && pendingLength == |Flatten(pending)|
      && (streamDone ==> position == |source| && !broken)
    }

    /** Everything not consumed yet, buffered or still to be read. */
    ghost function Rest(): Bytes
      reads this
      requires Valid()
    {
      Flatten(pending) + Flatten(source[position..])
    }

    /** Reads until `minBytes` are buffered or the stream ends; `false` when reading fails. */
    method FillTo(minBytes: nat) returns (ok: bool)
      requires Valid()
      modifies this`position, this`pending, this`pendingLength, this`streamDone
      ensures Valid() && Rest() == old(Rest())
      ensures ok <==> |Rest()| >= minBytes || !broken
      ensures ok && pendingLength < minBytes ==> pendingLength == |Rest()|
    {
      while pendingLength < minBytes && !streamDone
        invariant Valid() && Rest() == old(Rest())
        decreases |source| - position, !streamDone
      {
        if position == |source| {
          if broken {
            return false;
          }
          streamDone := true;
        } else {
          var value := source[position];
          assert source[position..][1..] == source[position + 1..];
          position := position + 1;
          if |value| > 0 {
            FlattenSnoc(pending, value);
            pending := pending + [value];
            pendingLength := pendingLength + |value|;
          }
        }
      }
      ok := true;
    }

    /** Copies the first `length` buffered bytes without consuming them. */
    method Peek(length: nat) returns (out: Bytes)
      requires Valid() && length <= pendingLength
      ensures out == Rest()[..length]
    {
      ghost var all := Flatten(pending);
      var buffer := new byte[length](_ => 0);
      var offset, i := 0, 0;
      while i < |pending| && offset < length
        invariant 0 <= i <= |pending| && 0 <= offset <= length
        invariant offset < length ==> Flatten(pending[..i]) == buffer[..offset]
        invariant buffer[..offset] <= all
      {
        var piece := pending[i];
        var taken := Min(|piece|, length - offset);
        ghost var before := buffer[..offset];
        CopiedMore(pending, i, before, taken);
        SetBytes(buffer, offset, piece[..taken]);
        offset := offset + taken;
        i := i + 1;
      }
      assert i == |pending| ==> pending[..i] == pending;
      assert buffer[..offset] == buffer[..];
      out := buffer[..];
    }

    /** Consumes `length` buffered bytes. */
    method Drop(length: nat)
      requires Valid() && length <= pendingLength
      modifies this`pending, this`pendingLength
      ensures Valid() && Rest() == old(Rest())[length..]
    {
      var remaining := length;
      ghost var all := Flatten(pending);
      while remaining > 0
        invariant 0 <= remaining <= length
        invariant position == old(position) && pendingLength == old(pendingLength)
        invariant length - remaining <= |all| && Flatten(pending) == all[length - remaining..]
        decreases remaining, |pending|
      {
        var piece := pending[0];
        if |piece| <= remaining {
          remaining := remaining - |piece|;
          pending := pending[1..];
        } else {
          assert pending[0 := piece[remaining..]][1..] == pending[1..];
          pending := pending[0 := piece[remaining..]];
          remaining := 0;
        }
      }
      pendingLength := pendingLength - length;
    }

    /**
     * The size of the next packet after `consumedOffset` bytes, and whether it is the last,
     * decided by looking one byte beyond a full packet.
     */
    method NextPacketBounds(consumedOffset: nat) returns (ok: bool, bounds: Option<Bounds>)
      requires Valid()
      modifies this`position, this`pending, this`pendingLength, this`streamDone
      ensures Valid() && Rest() == old(Rest())
      ensures ok <==> !broken || |Rest()| > consumedOffset + PACKED_CHUNK_SIZE
      ensures ok ==> bounds == if |Rest()| <= consumedOffset then None
                               else if |Rest()| - consumedOffset > PACKED_CHUNK_SIZE
                                 then Some(Bounds(PACKED_CHUNK_SIZE, false))
                               else Some(Bounds(|Rest()| - consumedOffset, true))
      ensures ok && bounds.Some? ==> consumedOffset + bounds.value.size <= pendingLength
    {
      bounds := None;
      ok := FillTo(consumedOffset + PACKED_CHUNK_SIZE + 1);
      if !ok {
        return;
      }
      var available := pendingLength - consumedOffset;
      if available <= 0 {
        return;
      }
      if available > PACKED_CHUNK_SIZE {
        bounds := Some(Bounds(PACKED_CHUNK_SIZE, false));
      } else {
        bounds := Some(Bounds(available, true));
      }
    }

    /** Opens one packet in its place, or reports that it does not open. */
    method Open(t: Table, packet: Bytes, salt: Option<Bytes>, index: nat, isLast: bool) returns (plain: Option<Bytes>)
      requires salt.Some? ==> |salt.value| == FILE_SALT_LENGTH
      ensures plain == OpenPacket(t, packet, AadFor(salt, index, isLast))
    {
      var aad := [];
      if salt.Some? {
        var built := BuildChunkAad(salt.value, index, isLast);
        aad := built.value;
      }
      plain := OpenPacket(t, packet, aad);
    }

    /** The first packet in the salted format; consumes it only when it opens. */
    method TrySaltedHead(t: Table) returns (ok: bool, salt: Option<Bytes>, plain: Bytes)
      requires Valid() && |Rest()| > 0
      requires |Rest()| >= FILE_SALT_LENGTH ==> pendingLength >= FILE_SALT_LENGTH
      modifies this
      ensures Valid()
      ensures ok <==>
              !broken || |old(Rest())| < FILE_SALT_LENGTH || |old(Rest())| > FILE_SALT_LENGTH + PACKED_CHUNK_SIZE
      ensures ok ==> (salt.Some? <==> AcceptsSalted(t, old(Rest())))
      ensures ok && salt.None? ==> Rest() == old(Rest()) && decryptedTotal == old(decryptedTotal)
      ensures ok && salt.Some? ==>
                var head := SaltedHead(t, old(Rest()));
                && salt == Some(old(Rest())[..FILE_SALT_LENGTH])
                && plain == head.plain.value
                && Rest() == old(Rest())[FILE_SALT_LENGTH + head.size..]
                && decryptedTotal == old(decryptedTotal) + |plain|
    {
      ok, salt, plain := true, None, [];
      if pendingLength < FILE_SALT_LENGTH {
        return;
      }
      var candidateSalt := Peek(FILE_SALT_LENGTH);
      var bounds;
      ok, bounds := NextPacketBounds(FILE_SALT_LENGTH);
      if !ok || bounds.None? {
        return;
      }
      var withSalt := Peek(FILE_SALT_LENGTH + bounds.value.size);
      var candidatePacket := withSalt[FILE_SALT_LENGTH..];
      assert candidatePacket == Rest()[FILE_SALT_LENGTH..FILE_SALT_LENGTH + bounds.value.size];
      var attempt := Open(t, candidatePacket, Some(candidateSalt), 0, bounds.value.isLast);
      if attempt.Some? {
        salt, plain := Some(candidateSalt), attempt.value;
        Drop(FILE_SALT_LENGTH + bounds.value.size);
        decryptedTotal := decryptedTotal + |plain|;
      }
    }

    /** Bounds, contents and consumption of the next packet; a packet that does not open is left in place. */
    method NextPacket(t: Table, salt: Option<Bytes>, index: nat)
      returns (ok: bool, bounds: Option<Bounds>, plain: Option<Bytes>)
      requires Valid()
      requires salt.Some? ==> |salt.value| == FILE_SALT_LENGTH
      modifies this
      ensures Valid()
      ensures ok <==> !broken || |old(Rest())| > PACKED_CHUNK_SIZE
      ensures ok ==> (bounds.None? <==> |old(Rest())| == 0)
      ensures ok && bounds.Some? ==>
                var size := Min(PACKED_CHUNK_SIZE, |old(Rest())|);
                && bounds.value.isLast == (size == |old(Rest())|)
                && plain == OpenPacket(t, old(Rest())[..size], AadFor(salt, index, size == |old(Rest())|))
                && (plain.Some? ==>
                      Rest() == old(Rest())[size..] && decryptedTotal == old(decryptedTotal) + |plain.value|)
      ensures !ok || bounds.None? || plain.None? ==> decryptedTotal == old(decryptedTotal)
    {
      plain := None;
      ok, bounds := NextPacketBounds(0);
      if !ok || bounds.None? {
        return;
      }
      var packet := Peek(bounds.value.size);
      plain := Open(t, packet, salt, index, bounds.value.isLast);
      if plain.Some? {
        Drop(bounds.value.size);
        decryptedTotal := decryptedTotal + |plain.value|;
      }
    }

    /** The main loop: the remaining packets in the format that was settled. */
    method DecodeRest(t: Table, salt: Option<Bytes>, start: nat) returns (d: Decoded)
      requires Valid()
      requires salt.Some? ==> |salt.value| == FILE_SALT_LENGTH
      modifies this
      ensures d == DecodePackets(t, salt, start, old(Rest()), broken)
      ensures decryptedTotal == old(decryptedTotal) + |Flatten(d.chunks)|
    {
      var chunks: seq<Bytes> := [];
      var index := start;
      ghost var goal := DecodePackets(t, salt, start, Rest(), broken);
      assert goal.After(chunks) == goal;
      while true
        invariant Valid()
        invariant goal == DecodePackets(t, salt, index, Rest(), broken).After(chunks)
        invariant decryptedTotal == old(decryptedTotal) + |Flatten(chunks)|
        decreases |Rest()|
      {
        ghost var before := Rest();
        var ok, bounds, plain := NextPacket(t, salt, index);
        if !ok {
          DecodeEnd(t, salt, index, before, broken, chunks);
          return Decoded(chunks, ReadFailed);
        }
        if bounds.None? {
          DecodeEnd(t, salt, index, before, broken, chunks);
          return Decoded(chunks, Done);
        }
        DecodeOne(t, salt, index, before, broken, chunks);
        if plain.None? {
          return Decoded(chunks, Corrupted);
        }
        FlattenSnoc(chunks, plain.value);
        chunks := chunks + [plain.value];
        index := index + 1;
        if bounds.value.isLast {
          DecodeEnd(t, salt, index, Rest(), broken, chunks);
          return Decoded(chunks, Done);
        }
      }
    }

    method IterateDecryptedChunks(t: Table, expectedTotalBytes: Option<nat>) returns (d: Decoded)
      requires Valid() && decryptedTotal == 0
      modifies this
      ensures d == Decrypt(t, old(Rest()), broken, expectedTotalBytes)
    {
      ghost var all := Rest();
      var ok := FillTo(FILE_SALT_LENGTH);
      if !ok {
        return Decoded([], ReadFailed);
      }
      if pendingLength == 0 {
        if expectedTotalBytes.Some? && expectedTotalBytes.value != 0 {
          return Decoded([], Truncated);
        }
        return Decoded([], Done);
      }
      var salt, first;
      ok, salt, first := TrySaltedHead(t);
      if !ok {
        return Decoded([], ReadFailed);
      }
      var rest := DecodeRest(t, salt, if salt.Some? then 1 else 0);
      d := if salt.Some? then rest.After([first]) else rest;
      assert decryptedTotal == |Flatten(d.chunks)| by {
        FlattenAppend([first], rest.chunks);
        assert Flatten([first]) == first;
      }
      if d.outcome.Done? && expectedTotalBytes.Some? && decryptedTotal != expectedTotalBytes.value {
        d := Decoded(d.chunks, Truncated);
      }
    }
  }
}
