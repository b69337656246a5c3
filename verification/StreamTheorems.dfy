/** What the two halves of the stream format guarantee together. */
module StreamTheorems {
  import opened Bytes
  import opened Packet
  import opened Aead
  import opened StreamEncrypt
  import opened StreamDecrypt

  // ---- Round trips ----

  /** The packets of `seals`, from position `index` on, hold the chunks of `file` in their places. */
  ghost predicate Placed(t: Table, salt: Option<Bytes>, index: nat, file: Bytes, seals: seq<Sealing>) {
    var chunks := FileChunks(file);
    && |seals| == |chunks|
    && forall j :: 0 <= j < |seals| ==>
         var k := SealKey(seals[j], AadFor(salt, index + j, j == |seals| - 1));
         |seals[j].iv| == IV_LENGTH && k in t && t[k] == chunks[j]
  }

  lemma PlacedTail(t: Table, salt: Option<Bytes>, index: nat, file: Bytes, seals: seq<Sealing>)
    requires Placed(t, salt, index, file, seals) && |file| > CHUNK_SIZE
    ensures Placed(t, salt, index + 1, file[CHUNK_SIZE..], seals[1..])
  {
    var chunks, rest := FileChunks(file), seals[1..];
    assert FileChunks(file[CHUNK_SIZE..]) == chunks[1..];
    forall j | 0 <= j < |rest|
      ensures var k := SealKey(rest[j], AadFor(salt, index + 1 + j, j == |rest| - 1));
              |rest[j].iv| == IV_LENGTH && k in t && t[k] == chunks[1..][j]
    {
      assert rest[j] == seals[j + 1] && index + 1 + j == index + (j + 1);
    }
  }

  lemma {:induction false} DecodeSealed(t: Table, salt: Option<Bytes>, index: nat, file: Bytes, seals: seq<Sealing>)
    requires Sized(t) && Placed(t, salt, index, file, seals)
    ensures DecodePackets(t, salt, index, PacketStream(seals), false) == Decoded(FileChunks(file), Done)
    decreases |file|
  {
    if |file| > 0 {
      var first := SealKey(seals[0], AadFor(salt, index + 0, 0 == |seals| - 1));
      assert first in t;
      OpenPacked(t, seals[0], first.aad);
      var packet, rest := PackedBytes(seals[0]), PacketStream(seals[1..]);
      var bytes := packet + rest;
      assert bytes[..|packet|] == packet && bytes[|packet|..] == rest;
      if |file| <= CHUNK_SIZE {
        assert rest == [];
        assert bytes == packet;
      } else {
        PlacedTail(t, salt, index, file, seals);
        DecodeSealed(t, salt, index + 1, file[CHUNK_SIZE..], seals[1..]);
        assert |rest| > 0;
      }
    }
  }

  /**
   * Decrypting the emitted stream, however it was fragmented, yields the file's chunks; it ends
   * normally exactly when the caller expects no size or the right one.
   */
  lemma RoundTrip(t: Table, salt: Bytes, file: Bytes, seals: seq<Sealing>, expected: Option<nat>)
    requires |salt| == FILE_SALT_LENGTH && Sized(t) && SealsFile(t, salt, file, seals)
    ensures Decrypt(t, SaltedStream(salt, seals), false, expected)
            == Decoded(FileChunks(file), if expected.None? || expected.value == |file| then Done else Truncated)
    ensures Flatten(FileChunks(file)) == file
  {
    FlattenCut(file, CHUNK_SIZE);
    if |file| > 0 {
      HeadOfSealed(t, salt, file, seals);
      assert SaltedStream(salt, seals)[..FILE_SALT_LENGTH] == salt;
      if |file| <= CHUNK_SIZE {
        assert FileChunks(file) == [file] + [];
      } else {
        RestOfSealed(t, salt, file, seals);
      }
    }
  }

  lemma RestOfSealed(t: Table, salt: Bytes, file: Bytes, seals: seq<Sealing>)
    requires Sized(t) && SealsFile(t, salt, file, seals) && |file| > CHUNK_SIZE
    ensures |seals| > 0
    ensures DecodePackets(t, Some(salt), 1, PacketStream(seals[1..]), false) == Decoded(FileChunks(file)[1..], Done)
    ensures FileChunks(file) == [FileChunks(file)[0]] + FileChunks(file)[1..]
  {
    assert Placed(t, Some(salt), 0, file, seals);
    PlacedTail(t, Some(salt), 0, file, seals);
    DecodeSealed(t, Some(salt), 1, file[CHUNK_SIZE..], seals[1..]);
    assert FileChunks(file[CHUNK_SIZE..]) == FileChunks(file)[1..];
  }

  lemma HeadOfSealed(t: Table, salt: Bytes, file: Bytes, seals: seq<Sealing>)
    requires |salt| == FILE_SALT_LENGTH && Sized(t) && SealsFile(t, salt, file, seals) && |file| > 0
    ensures var s := SaltedStream(salt, seals);
            && |s| > FILE_SALT_LENGTH
            && SaltedHead(t, s) == Head(|PackedBytes(seals[0])|, |file| <= CHUNK_SIZE, Some(FileChunks(file)[0]))
            && s[FILE_SALT_LENGTH + |PackedBytes(seals[0])|..] == PacketStream(seals[1..])
  {
    var s := SaltedStream(salt, seals);
    var key := ChunkKey(salt, seals, 0);
    assert key in t;
    OpenPacked(t, seals[0], key.aad);
    var packet, rest := PackedBytes(seals[0]), PacketStream(seals[1..]);
    assert s == salt + (packet + rest);
    assert s[..FILE_SALT_LENGTH] == salt;
    assert s[FILE_SALT_LENGTH..FILE_SALT_LENGTH + |packet|] == packet;
    assert s[FILE_SALT_LENGTH + |packet|..] == rest;
    if |file| > CHUNK_SIZE {
      assert |seals[1].iv| == IV_LENGTH;
      assert |rest| > 0;
    }
  }

  lemma {:induction false} DecodedLength(t: Table, salt: Option<Bytes>, index: nat, bytes: Bytes, broken: bool)
    requires Sized(t) && DecodePackets(t, salt, index, bytes, broken).outcome.Done?
    ensures var d := DecodePackets(t, salt, index, bytes, broken);
            |bytes| == |Flatten(d.chunks)| + PACKET_OVERHEAD * |d.chunks|
    decreases |bytes|
  {
    var d := DecodePackets(t, salt, index, bytes, broken);
    if |bytes| > PACKED_CHUNK_SIZE {
      var plain := OpenPacket(t, bytes[..PACKED_CHUNK_SIZE], AadFor(salt, index, false)).value;
      var rest := DecodePackets(t, salt, index + 1, bytes[PACKED_CHUNK_SIZE..], broken);
      DecodedLength(t, salt, index + 1, bytes[PACKED_CHUNK_SIZE..], broken);
      OpenedLength(t, bytes[..PACKED_CHUNK_SIZE], AadFor(salt, index, false));
      assert d.chunks == [plain] + rest.chunks;
      FlattenCons(plain, rest.chunks);
    } else if |bytes| > 0 {
      OpenedLength(t, bytes, AadFor(salt, index, true));
      assert Flatten(d.chunks) == d.chunks[0];
    }
  }

  lemma OpenedLength(t: Table, packet: Bytes, aad: Bytes)
    requires Sized(t) && OpenPacket(t, packet, aad).Some?
    ensures |packet| == |OpenPacket(t, packet, aad).value| + PACKET_OVERHEAD
  {
    var k := SealKey(UnpackChunk(packet).value, aad);
    assert k in t;
  }

  /**
   * The caller's expected size: it changes no byte that comes out and turns a normal end into a
   * truncation exactly when the sizes differ, in either format, for every table and every input. So no
   * normal end ever passes for a file of another size. A read failure is never a normal end.
   */
  lemma ExpectedSizeIsChecked(t: Table, bytes: Bytes, broken: bool, expected: Option<nat>)
    ensures var free, d := Decrypt(t, bytes, broken, None), Decrypt(t, bytes, broken, expected);
            && d.chunks == free.chunks
            && (d.outcome.Done? <==>
                  free.outcome.Done? && (expected.None? || |Flatten(d.chunks)| == expected.value))
            && (d.outcome.Truncated? <==>
                  free.outcome.Done? && expected.Some? && |Flatten(d.chunks)| != expected.value)
            && (!free.outcome.Done? ==> d == free)
            && (broken ==> !d.outcome.Done?)
  {
    if broken {
      BrokenIsNeverDone(t, None, 0, bytes);
      if AcceptsSalted(t, bytes) {
        BrokenIsNeverDone(t, Some(bytes[..FILE_SALT_LENGTH]), 1, bytes[FILE_SALT_LENGTH + SaltedHead(t, bytes).size..]);
      }
    }
    NeverTruncatedAlone(t, None, 0, bytes, broken);
    if AcceptsSalted(t, bytes) {
      NeverTruncatedAlone(t, Some(bytes[..FILE_SALT_LENGTH]), 1,
                          bytes[FILE_SALT_LENGTH + SaltedHead(t, bytes).size..], broken);
    }
  }

  lemma {:induction false} BrokenIsNeverDone(t: Table, salt: Option<Bytes>, index: nat, bytes: Bytes)
    ensures !DecodePackets(t, salt, index, bytes, true).outcome.Done?
    decreases |bytes|
  {
    if |bytes| > PACKED_CHUNK_SIZE {
      BrokenIsNeverDone(t, salt, index + 1, bytes[PACKED_CHUNK_SIZE..]);
    }
  }

  lemma {:induction false} NeverTruncatedAlone(t: Table, salt: Option<Bytes>, index: nat, bytes: Bytes, broken: bool)
    ensures !DecodePackets(t, salt, index, bytes, broken).outcome.Truncated?
    decreases |bytes|
  {
    if |bytes| > PACKED_CHUNK_SIZE {
      NeverTruncatedAlone(t, salt, index + 1, bytes[PACKED_CHUNK_SIZE..], broken);
    }
  }

  /**
   * A salt-free stream comes back as its file exactly when its first bytes do not happen to open as
   * a salted first packet; then the fallback reads it from the start, and with a wrong expected size
   * it ends as truncated.
   */
  lemma LegacyRoundTrip(t: Table, file: Bytes, seals: seq<Sealing>, expected: Option<nat>)
    requires Sized(t) && Placed(t, None, 0, file, seals) && |file| > 0
    ensures Decrypt(t, PacketStream(seals), false, expected)
            == Decoded(FileChunks(file), if expected.None? || expected.value == |file| then Done else Truncated)
            <==> !AcceptsSalted(t, PacketStream(seals))
  {
    var s := PacketStream(seals);
    FlattenCut(file, CHUNK_SIZE);
    DecodeSealed(t, None, 0, file, seals);
    DecodedLength(t, None, 0, s, false);
    assert |s| == |file| + PACKET_OVERHEAD * |FileChunks(file)|;
    if AcceptsSalted(t, s) && Decrypt(t, s, false, expected).chunks == FileChunks(file) {
      ExpectedSizeIsChecked(t, s, false, expected);
      if Decrypt(t, s, false, None).outcome.Done? {
        SaltedLength(t, s, None);
      }
    }
  }

  /** Input accepted in the salted format accounts for sixteen bytes more than the packets alone. */
  lemma SaltedLength(t: Table, bytes: Bytes, expected: Option<nat>)
    requires Sized(t) && AcceptsSalted(t, bytes) && Decrypt(t, bytes, false, expected).outcome.Done?
    ensures var d := Decrypt(t, bytes, false, expected);
            |bytes| == FILE_SALT_LENGTH + |Flatten(d.chunks)| + PACKET_OVERHEAD * |d.chunks|
  {
    var salt, head := Some(bytes[..FILE_SALT_LENGTH]), SaltedHead(t, bytes);
    var rest := bytes[FILE_SALT_LENGTH + head.size..];
    var d := DecodePackets(t, salt, 1, rest, false);
    DecodedLength(t, salt, 1, rest, false);
    FlattenAppend([head.plain.value], d.chunks);
    assert Flatten([head.plain.value]) == head.plain.value;
  }

  // ---- Integrity against arbitrary input ----

  ghost predicate HonestEntry(t: Table, files: map<Bytes, Bytes>, k: SealKey, salt: Bytes, i: nat)
    requires k in t
  {
    && salt in files
    && i < |FileChunks(files[salt])|
    && k.aad == ChunkAad(salt, i, i == |FileChunks(files[salt])| - 1)
    && t[k] == FileChunks(files[salt])[i]
  }

  /** Every entry with associated data is some chunk of the one file sealed under its salt. */
  ghost predicate Honest(t: Table, files: map<Bytes, Bytes>) {
    && (forall salt :: salt in files ==> |salt| == FILE_SALT_LENGTH && |FileChunks(files[salt])| <= UINT32)
    && (forall k :: k in t && k.aad != [] ==> exists salt, i :: HonestEntry(t, files, k, salt, i))
  }

  /** Encrypting a file under a salt not used before keeps the table honest. */
  lemma EncryptingKeepsHonest(t: Table, t': Table, files: map<Bytes, Bytes>, salt: Bytes, file: Bytes,
                              seals: seq<Sealing>)
    requires Honest(t, files)
    requires salt !in files && |salt| == FILE_SALT_LENGTH && |FileChunks(file)| <= UINT32
    requires |seals| == |FileChunks(file)| && AddsOnly(t, t', salt, FileChunks(file), seals, |seals|)
    ensures Honest(t', files[salt := file])
  {
    var files' := files[salt := file];
    forall k | k in t' && k.aad != []
      ensures exists s, i :: HonestEntry(t', files', k, s, i)
    {
      if k in t {
        var s: Bytes, i: nat :| HonestEntry(t, files, k, s, i);
        assert HonestEntry(t', files', k, s, i);
      } else {
        var i :| 0 <= i < |seals| && k == ChunkKey(salt, seals, i);
        assert HonestEntry(t', files', k, salt, i);
      }
    }
  }

  lemma SamePlace(s: Bytes, i: nat, l: bool, s': Bytes, i': nat, l': bool)
    requires |s| == |s'| && i < UINT32 && i' < UINT32
    requires ChunkAad(s, i, l) == ChunkAad(s', i', l')
    ensures s == s' && i == i' && l == l'
  {
    ChunkAadIsInjective(s, i, l, s', i', l');
    SmallModulus(i, UINT32);
    SmallModulus(i', UINT32);
  }

  lemma SmallModulus(i: nat, m: nat)
    requires i < m
    ensures i % m == i
  {
  }

  /** A packet that opens in a place is the chunk of that place, and the last flag is that of the file. */
  lemma OpensOnlyInPlace(t: Table, files: map<Bytes, Bytes>, salt: Bytes, index: nat, isLast: bool, packet: Bytes)
    requires Honest(t, files) && |salt| == FILE_SALT_LENGTH && index < UINT32
    requires OpenPacket(t, packet, ChunkAad(salt, index, isLast)).Some?
    ensures salt in files && index < |FileChunks(files[salt])|
    ensures isLast <==> index == |FileChunks(files[salt])| - 1
    ensures OpenPacket(t, packet, ChunkAad(salt, index, isLast)).value == FileChunks(files[salt])[index]
  {
    var k := SealKey(UnpackChunk(packet).value, ChunkAad(salt, index, isLast));
    assert k.aad[|k.aad| - 1] in k.aad;
    var s: Bytes, i: nat :| HonestEntry(t, files, k, s, i);
    var n := |FileChunks(files[s])|;
    assert i < n <= UINT32;
    SamePlace(salt, index, isLast, s, i, i == n - 1);
  }

  lemma {:induction false} DecodesInOrder(t: Table, files: map<Bytes, Bytes>, salt: Bytes, index: nat, bytes: Bytes,
                                          broken: bool)
    requires Honest(t, files) && salt in files && index < |FileChunks(files[salt])| && |bytes| > 0
    ensures var d := DecodePackets(t, Some(salt), index, bytes, broken);
            && d.chunks <= FileChunks(files[salt])[index..]
            && (d.outcome.Done? ==> d.chunks == FileChunks(files[salt])[index..])
    decreases |bytes|
  {
    var chunks := FileChunks(files[salt]);
    var size := Min(PACKED_CHUNK_SIZE, |bytes|);
    var isLast := size == |bytes|;
    if !(broken && isLast) {
      DecodeStep(t, Some(salt), index, bytes, broken);
      var plain := OpenPacket(t, bytes[..size], ChunkAad(salt, index, isLast));
      if plain.Some? {
        OpensOnlyInPlace(t, files, salt, index, isLast, bytes[..size]);
        var rest := DecodePackets(t, Some(salt), index + 1, bytes[size..], broken);
        if isLast {
          assert rest == Decoded([], Done);
          assert chunks[index..] == [plain.value];
        } else {
          DecodesInOrder(t, files, salt, index + 1, bytes[size..], broken);
          ConsPrefix(chunks, index, rest.chunks);
        }
      }
    }
  }

  lemma ConsPrefix(chunks: seq<Bytes>, index: nat, got: seq<Bytes>)
    requires index < |chunks| && got <= chunks[index + 1..]
    ensures [chunks[index]] + got <= chunks[index..]
    ensures got == chunks[index + 1..] ==> [chunks[index]] + got == chunks[index..]
  {
    assert chunks[index..] == [chunks[index]] + chunks[index + 1..];
  }

  lemma DecodeStep(t: Table, salt: Option<Bytes>, index: nat, bytes: Bytes, broken: bool)
    requires |bytes| > 0 && (broken ==> |bytes| > PACKED_CHUNK_SIZE)
    ensures var size := Min(PACKED_CHUNK_SIZE, |bytes|);
            var plain := OpenPacket(t, bytes[..size], AadFor(salt, index, size == |bytes|));
            DecodePackets(t, salt, index, bytes, broken)
            == if plain.None? then Decoded([], Corrupted)
               else DecodePackets(t, salt, index + 1, bytes[size..], broken).After([plain.value])
  {
    DecodeOne(t, salt, index, bytes, broken, []);
    var d := DecodePackets(t, salt, index, bytes, broken);
    assert d.After([]) == d;
    assert forall x: Bytes :: [] + [x] == [x];
  }

  lemma {:induction false} PrefixFlattens(a: seq<Bytes>, b: seq<Bytes>)
    requires a <= b
    ensures Flatten(a) <= Flatten(b)
  {
    assert b == a + b[|a|..];
    FlattenAppend(a, b[|a|..]);
  }

  /**
   * An accepted first packet is the first chunk of a file in the table, and its flag says whether it is the
   * only one.
   */
  lemma HeadIsInPlace(t: Table, files: map<Bytes, Bytes>, bytes: Bytes)
    requires Honest(t, files) && AcceptsSalted(t, bytes)
    ensures var salt, head := bytes[..FILE_SALT_LENGTH], SaltedHead(t, bytes);
            && salt in files && |FileChunks(files[salt])| > 0
            && head.plain.value == FileChunks(files[salt])[0]
            && (head.isLast <==> |FileChunks(files[salt])| == 1)
            && (head.isLast <==> FILE_SALT_LENGTH + head.size == |bytes|)
  {
    var salt, head := bytes[..FILE_SALT_LENGTH], SaltedHead(t, bytes);
    OpensOnlyInPlace(t, files, salt, 0, head.isLast, bytes[FILE_SALT_LENGTH..FILE_SALT_LENGTH + head.size]);
  }

  lemma AcceptedContinues(t: Table, files: map<Bytes, Bytes>, bytes: Bytes, broken: bool)
    requires Honest(t, files) && AcceptsSalted(t, bytes)
    ensures var salt, head := bytes[..FILE_SALT_LENGTH], SaltedHead(t, bytes);
            var d := DecodePackets(t, Some(salt), 1, bytes[FILE_SALT_LENGTH + head.size..], broken);
            && salt in files
            && [head.plain.value] + d.chunks <= FileChunks(files[salt])
            && (d.outcome.Done? ==> [head.plain.value] + d.chunks == FileChunks(files[salt]))
  {
    HeadIsInPlace(t, files, bytes);
    var salt, head := bytes[..FILE_SALT_LENGTH], SaltedHead(t, bytes);
    var chunks, rest := FileChunks(files[salt]), bytes[FILE_SALT_LENGTH + head.size..];
    if head.isLast {
      assert rest == [] && chunks == [chunks[0]];
    } else {
      DecodesInOrder(t, files, salt, 1, rest, broken);
      ConsPrefix(chunks, 0, DecodePackets(t, Some(salt), 1, rest, broken).chunks);
      assert chunks[0..] == chunks;
    }
  }

  /** After an accepted first packet, the chunks are the file's, from the start, all of them when it ends well. */
  lemma SaltedPrefix(t: Table, files: map<Bytes, Bytes>, bytes: Bytes, broken: bool, expected: Option<nat>)
    requires Honest(t, files) && AcceptsSalted(t, bytes)
    ensures var salt := bytes[..FILE_SALT_LENGTH];
            var d := Decrypt(t, bytes, broken, expected);
            && salt in files
            && d.chunks <= FileChunks(files[salt])
            && (d.outcome.Done? ==> d.chunks == FileChunks(files[salt]))
  {
    AcceptedContinues(t, files, bytes, broken);
  }

  /**
   * Whatever bytes arrive, once the first packet opens in the salted format the output is a prefix of
   * the one file sealed under that salt, and a normal end means the whole file came out, even when
   * the caller expects no particular size.
   */
  lemma SaltedIntegrity(t: Table, files: map<Bytes, Bytes>, bytes: Bytes, broken: bool, expected: Option<nat>)
    requires Honest(t, files) && AcceptsSalted(t, bytes)
    ensures var salt := bytes[..FILE_SALT_LENGTH];
            var d := Decrypt(t, bytes, broken, expected);
            && salt in files
            && d.chunks <= FileChunks(files[salt])
            && Flatten(d.chunks) <= files[salt]
            && (d.outcome.Done? ==> Flatten(d.chunks) == files[salt])
  {
    SaltedPrefix(t, files, bytes, broken, expected);
    var file := files[bytes[..FILE_SALT_LENGTH]];
    FlattenCut(file, CHUNK_SIZE);
    PrefixFlattens(Decrypt(t, bytes, broken, expected).chunks, FileChunks(file));
  }

  /** Under an honest table the fallback reads every salt-free stream whose first bytes are no salt in use. */
  lemma LegacyUnderHonestTable(t: Table, files: map<Bytes, Bytes>, file: Bytes, seals: seq<Sealing>,
                               expected: Option<nat>)
    requires Honest(t, files) && Sized(t) && Placed(t, None, 0, file, seals) && |file| > 0
    requires forall salt :: salt in files ==> !(salt <= PacketStream(seals))
    ensures Decrypt(t, PacketStream(seals), false, expected)
            == Decoded(FileChunks(file), if expected.None? || expected.value == |file| then Done else Truncated)
  {
    LegacyRoundTrip(t, file, seals, expected);
    if AcceptsSalted(t, PacketStream(seals)) {
      SaltedIntegrity(t, files, PacketStream(seals), false, expected);
    }
  }

  // ---- What the fallback cannot do ----

  /** The chunk was sealed without associated data. */
  ghost predicate SealedUnbound(t: Table, chunk: Bytes) {
    exists k :: k in t && k.aad == [] && t[k] == chunk
  }

  lemma {:induction false} UnsaltedChunks(t: Table, index: nat, bytes: Bytes, broken: bool)
    ensures forall c :: c in DecodePackets(t, None, index, bytes, broken).chunks ==> SealedUnbound(t, c)
    decreases |bytes|
  {
    if |bytes| > 0 && !(broken && |bytes| <= PACKED_CHUNK_SIZE) {
      DecodeStep(t, None, index, bytes, broken);
      var size := Min(PACKED_CHUNK_SIZE, |bytes|);
      var plain := OpenPacket(t, bytes[..size], []);
      if plain.Some? {
        var k := SealKey(UnpackChunk(bytes[..size]).value, []);
        assert k in t && t[k] == plain.value;
        UnsaltedChunks(t, index + 1, bytes[size..], broken);
      }
    }
  }

  /**
   * Nothing sealed in the new format slips through the fallback: for every table and every byte string
   * whose head is not accepted as salted, each chunk that comes out was sealed without associated data.
   */
  lemma FallbackYieldsOnlyUnbound(t: Table, bytes: Bytes, broken: bool, expected: Option<nat>)
    requires !AcceptsSalted(t, bytes)
    ensures forall c :: c in Decrypt(t, bytes, broken, expected).chunks ==> SealedUnbound(t, c)
  {
    UnsaltedChunks(t, 0, bytes, broken);
  }

  /** So under a key that sealed only in the new format, such input yields nothing and never ends normally. */
  lemma NewFormatNeverFallsBack(t: Table, bytes: Bytes, broken: bool, expected: Option<nat>)
    requires !AcceptsSalted(t, bytes) && |bytes| > 0
    requires forall k :: k in t ==> k.aad != []
    ensures Decrypt(t, bytes, broken, expected).chunks == [] && !Decrypt(t, bytes, broken, expected).outcome.Done?
  {
    if |bytes| > PACKED_CHUNK_SIZE || !broken {
      DecodeStep(t, None, 0, bytes, broken);
    }
  }

  // ---- The other side of the legacy round trip ----

  function ZeroBytes(n: nat): (b: Bytes)
    ensures |b| == n && forall i :: 0 <= i < n ==> b[i] == 0
  {
    seq(n, _ => 0)
  }

  /** A legacy packet of sixteen zero bytes, and a salted one of no bytes that its last 28 bytes spell. */
  function MistakenTable(): Table {
    map[SealKey(Sealing(ZeroBytes(12), ZeroBytes(32)), []) := ZeroBytes(16),
        SealKey(Sealing(ZeroBytes(12), ZeroBytes(16)), ChunkAad(ZeroBytes(16), 0, true)) := []]
  }

  /**
   * The condition of `LegacyRoundTrip` can fail: a properly sealed legacy file of sixteen bytes whose
   * stream opens as a salted one does not come back.
   */
  lemma LegacyCanBeMistaken() returns (t: Table, file: Bytes, seals: seq<Sealing>)
    ensures Sized(t) && Placed(t, None, 0, file, seals) && |file| == 16
    ensures AcceptsSalted(t, PacketStream(seals))
    ensures Decrypt(t, PacketStream(seals), false, Some(|file|)) != Decoded(FileChunks(file), Done)
  {
    t, file := MistakenTable(), ZeroBytes(16);
    var legacy := Sealing(ZeroBytes(12), ZeroBytes(32));
    seals := [legacy];
    var stream := PacketStream(seals);
    assert seals[1..] == [];
    assert PacketStream(seals[1..]) == [];
    assert stream == PackedBytes(legacy) + [] == ZeroBytes(12) + ZeroBytes(32);
    assert stream == ZeroBytes(44);
    assert FileChunks(file) == [file];
    var packet := stream[16..44];
    assert stream[..16] == ZeroBytes(16) && packet == ZeroBytes(28);
    assert packet[..12] == ZeroBytes(12) && packet[12..] == ZeroBytes(16);
    assert AcceptsSalted(t, stream);
    LegacyRoundTrip(t, file, seals, Some(|file|));
  }
}
