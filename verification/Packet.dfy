/**
 * The packet format: sizes, the associated data that ties a packet to its place in a file,
 * and the arithmetic between plaintext sizes, ciphertext sizes and multipart part numbers.
 */
module Packet {
  import opened Bytes

  const CHUNK_SIZE: nat := 8 * 1024 * 1024
  const IV_LENGTH: nat := 12
  const GCM_TAG_LENGTH: nat := 16
  const FILE_SALT_LENGTH: nat := 16
  const PACKET_OVERHEAD: nat := IV_LENGTH + GCM_TAG_LENGTH
  const PACKED_CHUNK_SIZE: nat := CHUNK_SIZE + PACKET_OVERHEAD
  const UPLOAD_PART_SIZE: nat := CHUNK_SIZE
  const R2_MIN_PART_SIZE: nat := 5 * 1024 * 1024
  const UINT32: nat := 0x1_0000_0000

  /** An IV and the ciphertext (plaintext length plus tag) sealed under it. */
  datatype Sealing = Sealing(iv: Bytes, ciphertext: Bytes)

  /** The byte form of a packet, filled field by field into one fresh buffer. */
  method PackChunk(sealing: Sealing) returns (result: Bytes)
    requires |sealing.iv| == IV_LENGTH
    ensures |result| == IV_LENGTH + |sealing.ciphertext|
    ensures result[..IV_LENGTH] == sealing.iv && result[IV_LENGTH..] == sealing.ciphertext
    ensures UnpackChunk(result) == Some(sealing)
  {
    var buffer := new byte[IV_LENGTH + |sealing.ciphertext|](_ => 0);
    forall i | 0 <= i < IV_LENGTH {
      buffer[i] := sealing.iv[i];
    }
    forall i | 0 <= i < |sealing.ciphertext| {
      buffer[IV_LENGTH + i] := sealing.ciphertext[i];
    }
    result := buffer[..];
    assert result[..IV_LENGTH] == sealing.iv;
    assert result[IV_LENGTH..] == sealing.ciphertext;
  }

  /** Splits a packet; anything shorter than an IV is malformed. */
  function UnpackChunk(data: Bytes): Option<Sealing> {
    if |data| < IV_LENGTH then None
    else Some(Sealing(data[..IV_LENGTH], data[IV_LENGTH..]))
  }

  /** Packing undoes unpacking, so no two packets carry the same sealing. */
  lemma UnpackIsInjective(a: Bytes, b: Bytes)
    requires UnpackChunk(a).Some?
    ensures UnpackChunk(a) == UnpackChunk(b) <==> a == b
  {
    assert a == a[..IV_LENGTH] + a[IV_LENGTH..];
    if |b| >= IV_LENGTH {
      assert b == b[..IV_LENGTH] + b[IV_LENGTH..];
    }
  }

  // ---- Associated data ----

  /** The low `width` bytes of a number, most significant first. */
  function BigEndian(n: nat, width: nat): (b: Bytes)
    ensures |b| == width
  {
    if width == 0 then [] else BigEndian(n / 256, width - 1) + [n % 256]
  }

  function FromBigEndian(b: Bytes): nat {
    if |b| == 0 then 0 else FromBigEndian(b[..|b| - 1]) * 256 + b[|b| - 1]
  }

  /** `DataView.setUint32(offset, index, false)`. */
  function BigEndian32(index: nat): Bytes {
    BigEndian(index, 4)
  }

  lemma BigEndian32Value(index: nat)
    ensures FromBigEndian(BigEndian32(index)) == index % UINT32
  {
    var i1, i2, i3 := index / 256, index / 256 / 256, index / 256 / 256 / 256;
    var b4, b3, b2, b1 := BigEndian(index, 4), BigEndian(i1, 3), BigEndian(i2, 2), BigEndian(i3, 1);
    assert b4 == b3 + [index % 256] && b3 == b2 + [i1 % 256] && b2 == b1 + [i2 % 256];
    assert b1 == BigEndian(i3 / 256, 0) + [i3 % 256];
    assert b4[..3] == b3 && b3[..2] == b2 && b2[..1] == b1 && b1[..0] == [];
    var low := FromBigEndian(b4);
    assert FromBigEndian(b1) == i3 % 256;
    assert FromBigEndian(b2) == i3 % 256 * 256 + i2 % 256;
    assert FromBigEndian(b3) == (i3 % 256 * 256 + i2 % 256) * 256 + i1 % 256;
    assert low == i3 % 256 * 0x100_0000 + i2 % 256 * 0x1_0000 + i1 % 256 * 0x100 + index % 256;
    assert index == i3 / 256 * UINT32 + low;
  }

  /** Two indices have the same bytes exactly when they agree modulo 2^32. */
  lemma BigEndian32Same(i: nat, j: nat)
    ensures BigEndian32(i) == BigEndian32(j) <==> i % UINT32 == j % UINT32
  {
    BigEndian32Value(i);
    BigEndian32Value(j);
    if i % UINT32 == j % UINT32 {
      var a, b := BigEndian32(i), BigEndian32(j);
      FromBigEndianIsInjective(a, b);
    }
  }

  lemma {:induction false} FromBigEndianIsInjective(a: Bytes, b: Bytes)
    requires |a| == |b| && FromBigEndian(a) == FromBigEndian(b)
    ensures a == b
  {
    if |a| > 0 {
      FromBigEndianIsInjective(a[..|a| - 1], b[..|b| - 1]);
      assert a == a[..|a| - 1] + [a[|a| - 1]];
      assert b == b[..|b| - 1] + [b[|b| - 1]];
    }
  }

  function ChunkAad(salt: Bytes, index: nat, isLast: bool): Bytes {
    salt + BigEndian32(index) + [if isLast then 1 else 0]
  }

  /** Where everything lies in the twenty-one bytes: the salt, the index from its highest byte down, the flag. */
  lemma ChunkAadLayout(salt: Bytes, index: nat, isLast: bool)
    requires |salt| == FILE_SALT_LENGTH
    ensures var aad := ChunkAad(salt, index, isLast);
            && |aad| == 21 && aad[..16] == salt
            && aad[16] == index / 0x100_0000 % 0x100
            && aad[17] == index / 0x1_0000 % 0x100
            && aad[18] == index / 0x100 % 0x100
            && aad[19] == index % 0x100
            && aad[20] == if isLast then 1 else 0
  {
    BigEndianBytes(index);
    Quotients(index);
  }

  lemma BigEndianBytes(index: nat)
    ensures BigEndian(index, 4)
            == [index / 256 / 256 / 256 % 256, index / 256 / 256 % 256, index / 256 % 256, index % 256]
  {
    assert BigEndian(index / 256 / 256 / 256, 1) == [] + [index / 256 / 256 / 256 % 256];
    assert BigEndian(index / 256 / 256, 2) == BigEndian(index / 256 / 256 / 256, 1) + [index / 256 / 256 % 256];
    assert BigEndian(index / 256, 3) == BigEndian(index / 256 / 256, 2) + [index / 256 % 256];
  }

  lemma Quotients(index: nat)
    ensures index / 256 / 256 == index / 0x1_0000 && index / 256 / 256 / 256 == index / 0x100_0000
  {
  }

  /** Writes salt, index and flag into a fresh buffer; a salt of any other length is rejected. */
  method BuildChunkAad(fileSalt: Bytes, index: nat, isLast: bool) returns (aad: Option<Bytes>)
    ensures aad == if |fileSalt| == FILE_SALT_LENGTH then Some(ChunkAad(fileSalt, index, isLast)) else None
  {
    if |fileSalt| != FILE_SALT_LENGTH {
      return None;
    }
    var buffer := new byte[FILE_SALT_LENGTH + 5](_ => 0);
    forall i | 0 <= i < FILE_SALT_LENGTH {
      buffer[i] := fileSalt[i];
    }
    buffer[FILE_SALT_LENGTH] := index / 256 / 256 / 256 % 256;
    buffer[FILE_SALT_LENGTH + 1] := index / 256 / 256 % 256;
    buffer[FILE_SALT_LENGTH + 2] := index / 256 % 256;
    buffer[FILE_SALT_LENGTH + 3] := index % 256;
    buffer[FILE_SALT_LENGTH + 4] := if isLast then 1 else 0;
    assert BigEndian(index / 256 / 256 / 256, 1) == [] + buffer[FILE_SALT_LENGTH..FILE_SALT_LENGTH + 1];
    assert BigEndian(index / 256 / 256, 2) == buffer[FILE_SALT_LENGTH..FILE_SALT_LENGTH + 2];
    assert BigEndian(index / 256, 3) == buffer[FILE_SALT_LENGTH..FILE_SALT_LENGTH + 3];
    assert BigEndian32(index) == buffer[FILE_SALT_LENGTH..FILE_SALT_LENGTH + 4];
    assert buffer[..FILE_SALT_LENGTH] == fileSalt;
    assert buffer[..] == ChunkAad(fileSalt, index, isLast);
    aad := Some(buffer[..]);
  }

  /** Associated data determines salt, position modulo 2^32, and the last-chunk flag: nothing more, nothing less. */
  lemma ChunkAadIsInjective(s: Bytes, i: nat, l: bool, s': Bytes, i': nat, l': bool)
    requires |s| == |s'|
    ensures ChunkAad(s, i, l) == ChunkAad(s', i', l') <==> s == s' && i % UINT32 == i' % UINT32 && l == l'
  {
    var a, a' := ChunkAad(s, i, l), ChunkAad(s', i', l');
    BigEndian32Same(i, i');
    if a == a' {
      assert s == a[..|s|] && s' == a'[..|s|];
      assert BigEndian32(i) == a[|s|..|s| + 4] && BigEndian32(i') == a'[|s|..|s| + 4];
      assert a[|s| + 4] == a'[|s| + 4];
    }
  }

  // ---- Sizes ----

  /** `None` is the source's "Invalid ciphertext size." */
  function PlaintextSize(ciphertextSize: nat): Option<nat> {
    if ciphertextSize < FILE_SALT_LENGTH then None
    else
      var packetStreamSize := ciphertextSize - FILE_SALT_LENGTH;
      var fullPackets := packetStreamSize / PACKED_CHUNK_SIZE;
      var remainder := packetStreamSize - fullPackets * PACKED_CHUNK_SIZE;
      if remainder == 0 then Some(fullPackets * CHUNK_SIZE)
      else if remainder <= PACKET_OVERHEAD then None
      else Some(fullPackets * CHUNK_SIZE + (remainder - PACKET_OVERHEAD))
  }

  function CiphertextSize(plaintextSize: nat): nat {
    if plaintextSize == 0 then 0
    else FILE_SALT_LENGTH + plaintextSize + CeilDiv(plaintextSize, CHUNK_SIZE) * PACKET_OVERHEAD
  }

  /** The plaintext size read back from a ciphertext size is the size that was encrypted. */
  lemma PlaintextSizeInverts(n: nat)
    requires n > 0
    ensures PlaintextSize(CiphertextSize(n)) == Some(n)
  {
    var full := (n - 1) / CHUNK_SIZE;
    var last := n - full * CHUNK_SIZE;
    PacketsOf(n, full, last);
    PacketsBack(full, last);
  }

  lemma PacketsOf(n: nat, full: nat, last: nat)
    requires n == full * CHUNK_SIZE + last && 0 < last <= CHUNK_SIZE
    ensures CiphertextSize(n) == FILE_SALT_LENGTH + full * PACKED_CHUNK_SIZE + (last + PACKET_OVERHEAD)
  {
    QuotientIs(n + CHUNK_SIZE - 1, CHUNK_SIZE, full + 1);
  }

  lemma PacketsBack(full: nat, last: nat)
    requires 0 < last <= CHUNK_SIZE
    ensures PlaintextSize(FILE_SALT_LENGTH + full * PACKED_CHUNK_SIZE + (last + PACKET_OVERHEAD))
            == Some(full * CHUNK_SIZE + last)
  {
    QuotientIs(full * PACKED_CHUNK_SIZE + (last + PACKET_OVERHEAD), PACKED_CHUNK_SIZE,
               if last == CHUNK_SIZE then full + 1 else full);
  }

  /**
   * A ciphertext size is accepted exactly when it is the size of some encrypted non-empty file,
   * or is a bare salt with no packet, which is accepted as an empty file although the encryptor
   * never emits it.
   */
  lemma {:induction false} PlaintextSizeAccepts(c: nat)
    ensures PlaintextSize(c).Some? <==> c == FILE_SALT_LENGTH || exists n: nat :: n > 0 && CiphertextSize(n) == c
    ensures PlaintextSize(c).Some? && c != FILE_SALT_LENGTH
            ==> PlaintextSize(c).value > 0 && CiphertextSize(PlaintextSize(c).value) == c
  {
    if exists n: nat :: n > 0 && CiphertextSize(n) == c {
      var n: nat :| n > 0 && CiphertextSize(n) == c;
      PlaintextSizeInverts(n);
    }
    var rest := c - FILE_SALT_LENGTH;
    if PlaintextSize(c).Some? && rest > 0 {
      var full := rest / PACKED_CHUNK_SIZE;
      var remainder := rest - full * PACKED_CHUNK_SIZE;
      if remainder == 0 {
        PacketsOf(full * CHUNK_SIZE, full - 1, CHUNK_SIZE);
      } else {
        PacketsOf(full * CHUNK_SIZE + (remainder - PACKET_OVERHEAD), full, remainder - PACKET_OVERHEAD);
      }
    }
  }

  function MaxPartNumber(declaredFileSize: nat): nat {
    Max(1, CeilDiv(declaredFileSize, R2_MIN_PART_SIZE))
  }

  predicate IsPartNumberAllowed(partNumber: int, declaredFileSize: nat) {
    1 <= partNumber <= MaxPartNumber(declaredFileSize)
  }

  /** A part number is allowed exactly when minimum-size parts before it would not yet hold the declared size. */
  lemma AllowedPartNumbers(partNumber: int, n: nat)
    ensures IsPartNumberAllowed(partNumber, n) <==>
            partNumber == 1 || (partNumber > 1 && (partNumber - 1) * R2_MIN_PART_SIZE < n)
  {
  }

  /** Cutting an honest upload into parts never needs a part number the server refuses. */
  lemma HonestPartsAreAllowed(n: nat, partNumber: int)
    requires 1 <= partNumber <= CeilDiv(CiphertextSize(n), UPLOAD_PART_SIZE)
    ensures IsPartNumberAllowed(partNumber, n)
  {
    var packets := CeilDiv(n, CHUNK_SIZE);
    assert (packets - 1) * CHUNK_SIZE < n;
    assert (CeilDiv(CiphertextSize(n), UPLOAD_PART_SIZE) - 1) * UPLOAD_PART_SIZE < CiphertextSize(n);
    assert CeilDiv(n, R2_MIN_PART_SIZE) * R2_MIN_PART_SIZE >= n;
  }
}
