/**
 * Authenticated encryption under one share key, taken as ideal: a packet opens exactly when the
 * triple of IV, ciphertext and associated data was sealed, and then gives the sealed plaintext.
 * IVs and ciphertexts are the random part and come in as parameters.
 */
module Aead {
  import opened Bytes
  import opened Packet

  datatype SealKey = SealKey(sealing: Sealing, aad: Bytes)

  type Table = map<SealKey, Bytes>

  /** Ciphertexts are as long as their plaintext plus the tag, under IVs of the fixed length. */
  ghost predicate Sized(t: Table) {
    forall k :: k in t ==> |k.sealing.iv| == IV_LENGTH && |k.sealing.ciphertext| == |t[k]| + GCM_TAG_LENGTH
  }

  /** `unpackChunk` followed by `decryptChunk`; `None` is either of them throwing. */
  function OpenPacket(t: Table, packet: Bytes, aad: Bytes): Option<Bytes> {
    match UnpackChunk(packet)
    case None => None
    case Some(sealing) =>
      var k := SealKey(sealing, aad);
      if k in t then Some(t[k]) else None
  }

  class Vault {
    var table: Table

    constructor ()
      ensures table == map[]
    {
      table := map[];
    }

    /** `encryptChunk`, given the IV and ciphertext it draws. */
    method Seal(plaintext: Bytes, aad: Bytes, sealing: Sealing)
      requires SealKey(sealing, aad) in table ==> table[SealKey(sealing, aad)] == plaintext
      modifies this
      ensures table == old(table)[SealKey(sealing, aad) := plaintext]
    {
      table := table[SealKey(sealing, aad) := plaintext];
    }
  }

  function PackedBytes(s: Sealing): Bytes {
    s.iv + s.ciphertext
  }

  /** The concatenation of the packets of a list of sealings. */
  function PacketStream(seals: seq<Sealing>): Bytes {
    if |seals| == 0 then [] else PackedBytes(seals[0]) + PacketStream(seals[1..])
  }

  lemma {:induction false} PacketStreamAppend(a: seq<Sealing>, b: seq<Sealing>)
    ensures PacketStream(a + b) == PacketStream(a) + PacketStream(b)
  {
    if |a| == 0 {
      assert a + b == b;
    } else {
      PacketStreamAppend(a[1..], b);
      assert (a + b)[1..] == a[1..] + b && (a + b)[0] == a[0];
      Associates(PackedBytes(a[0]), PacketStream(a[1..]), PacketStream(b));
    }
  }

  lemma Associates(x: Bytes, y: Bytes, z: Bytes)
    ensures x + (y + z) == (x + y) + z
  {
  }

  lemma OpenPacked(t: Table, s: Sealing, aad: Bytes)
    requires |s.iv| == IV_LENGTH && SealKey(s, aad) in t
    ensures OpenPacket(t, PackedBytes(s), aad) == Some(t[SealKey(s, aad)])
  {
    assert PackedBytes(s)[..IV_LENGTH] == s.iv;
    assert PackedBytes(s)[IV_LENGTH..] == s.ciphertext;
  }
}
