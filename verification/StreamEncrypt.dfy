/** The sending side: a file read chunk by chunk, each chunk sealed in its place. */
module StreamEncrypt {
  import opened Bytes
  import opened Packet
  import opened Aead

  function FileChunks(file: Bytes): seq<Bytes> {
    Cut(file, CHUNK_SIZE)
  }

  /** Reads the file one slice at a time. */
  method IterateFileChunks(file: Bytes) returns (chunks: seq<Bytes>)
    ensures chunks == FileChunks(file)
  {
    chunks := [];
    var offset := 0;
    assert file[0..] == file;
    while offset < |file|
      invariant 0 <= offset <= |file|
      invariant FileChunks(file) == chunks + FileChunks(file[offset..])
    {
      var end := Min(offset + CHUNK_SIZE, |file|);
      ghost var rest := file[offset..];
      assert file[offset..end] == rest[..end - offset];
      assert file[end..] == rest[end - offset..];
      CutHead(rest, CHUNK_SIZE);
      chunks := chunks + [file[offset..end]];
      offset := end;
    }
    assert chunks + FileChunks(file[offset..]) == chunks;
  }

  /** The table entry that seals chunk `i` of a file of `|seals|` chunks under its salt. */
  function ChunkKey(salt: Bytes, seals: seq<Sealing>, i: nat): SealKey
    requires i < |seals|
  {
    SealKey(seals[i], ChunkAad(salt, i, i == |seals| - 1))
  }

  /** The random draws fit the file: right lengths, and no draw repeats or has been sealed before. */
  ghost predicate FreshSeals(t: Table, file: Bytes, seals: seq<Sealing>) {
    && |seals| == |FileChunks(file)|
    && (forall i :: 0 <= i < |seals| ==>
          |seals[i].iv| == IV_LENGTH && |seals[i].ciphertext| == |FileChunks(file)[i]| + GCM_TAG_LENGTH)
    && (forall k :: k in t ==> k.sealing !in seals)
    && (forall i, j :: 0 <= i < j < |seals| ==> seals[i] != seals[j])
  }

  /** Every chunk of `file` is sealed in its place under `salt`. */
  ghost predicate SealsFile(t: Table, salt: Bytes, file: Bytes, seals: seq<Sealing>) {
    var chunks := FileChunks(file);
    && |seals| == |chunks|
    && forall i :: 0 <= i < |seals| ==>
         && |seals[i].iv| == IV_LENGTH
         && ChunkKey(salt, seals, i) in t
         && t[ChunkKey(salt, seals, i)] == chunks[i]
  }

  /** Table `t'` is `t` plus exactly the first `n` chunks of one file, each sealed in its place. */
  ghost predicate AddsOnly(t: Table, t': Table, salt: Bytes, chunks: seq<Bytes>, seals: seq<Sealing>, n: nat)
    requires n <= |seals| == |chunks|
  {
    && (forall k :: k in t ==> k in t' && t'[k] == t[k])
    && (forall i :: 0 <= i < n ==> ChunkKey(salt, seals, i) in t' && t'[ChunkKey(salt, seals, i)] == chunks[i])
    && (forall k :: k in t' && k !in t ==> exists i :: 0 <= i < n && k == ChunkKey(salt, seals, i))
  }

  /** What goes over the wire: the salt once, then the packets; nothing at all for an empty file. */
  function SaltedStream(salt: Bytes, seals: seq<Sealing>): Bytes {
    if |seals| == 0 then [] else salt + PacketStream(seals)
  }

  lemma AddsOneMore(t: Table, t': Table, salt: Bytes, file: Bytes, seals: seq<Sealing>, n: nat)
    requires FreshSeals(t, file, seals) && n < |seals|
    requires AddsOnly(t, t', salt, FileChunks(file), seals, n)
    ensures var key, chunk := ChunkKey(salt, seals, n), FileChunks(file)[n];
            && |seals[n].iv| == IV_LENGTH
            && (key in t' ==> t'[key] == chunk)
            && AddsOnly(t, t'[key := chunk], salt, FileChunks(file), seals, n + 1)
  {
    var key, chunk := ChunkKey(salt, seals, n), FileChunks(file)[n];
    var t'' := t'[key := chunk];
    forall k | k in t'' && k !in t
      ensures exists i :: 0 <= i < n + 1 && k == ChunkKey(salt, seals, i)
    {
      if k != key {
        var i :| 0 <= i < n && k == ChunkKey(salt, seals, i);
      }
    }
  }

  lemma AllAdded(t: Table, t': Table, salt: Bytes, file: Bytes, seals: seq<Sealing>)
    requires FreshSeals(t, file, seals)
    requires AddsOnly(t, t', salt, FileChunks(file), seals, |seals|)
    ensures SealsFile(t', salt, file, seals)
  {
  }

  lemma OnlyOnePacking(packed: Bytes, s: Sealing)
    requires |s.iv| == IV_LENGTH && UnpackChunk(packed) == Some(s)
    ensures packed == PackedBytes(s)
  {
    assert packed == packed[..IV_LENGTH] + packed[IV_LENGTH..];
  }

  lemma ExtendPackets(seals: seq<Sealing>, index: nat)
    requires index < |seals|
    ensures PacketStream(seals[..index + 1]) == PacketStream(seals[..index]) + PackedBytes(seals[index])
  {
    PacketStreamAppend(seals[..index], [seals[index]]);
    assert seals[..index] + [seals[index]] == seals[..index + 1];
    assert PacketStream([seals[index]]) == PackedBytes(seals[index]) + PacketStream([]);
  }

  lemma ExtendStream(salt: Bytes, seals: seq<Sealing>, index: nat, packets: seq<Bytes>)
    requires index < |seals| && Flatten(packets) == SaltedStream(salt, seals[..index])
    ensures var packed := PackedBytes(seals[index]);
            Flatten(packets + [if index == 0 then salt + packed else packed]) == SaltedStream(salt, seals[..index + 1])
  {
    var packed := PackedBytes(seals[index]);
    FlattenSnoc(packets, if index == 0 then salt + packed else packed);
    ExtendPackets(seals, index);
    Associates(salt, PacketStream(seals[..index]), packed);
  }

  /** One turn of the loop: bind the chunk to its place, seal it, pack it. */
  method SealInPlace(vault: Vault, chunk: Bytes, fileSalt: Bytes, index: nat, isLast: bool, sealing: Sealing)
    returns (packed: Bytes)
    requires |fileSalt| == FILE_SALT_LENGTH && |sealing.iv| == IV_LENGTH
    requires var key := SealKey(sealing, ChunkAad(fileSalt, index, isLast));
             key in vault.table ==> vault.table[key] == chunk
    modifies vault
    ensures vault.table == old(vault.table)[SealKey(sealing, ChunkAad(fileSalt, index, isLast)) := chunk]
    ensures packed == PackedBytes(sealing)
  {
    var aad := BuildChunkAad(fileSalt, index, isLast);
    vault.Seal(chunk, aad.value, sealing);
    packed := PackChunk(sealing);
    OnlyOnePacking(packed, sealing);
  }

  /** The first `index` chunks are sealed in their places and on the wire. */
  ghost predicate Progress(t: Table, t': Table, fileSalt: Bytes, chunks: seq<Bytes>, seals: seq<Sealing>, index: nat,
                           packets: seq<Bytes>) {
    && index <= |seals| == |chunks| && |packets| == index
    && AddsOnly(t, t', fileSalt, chunks, seals, index)
    && Flatten(packets) == SaltedStream(fileSalt, seals[..index])
  }

  /** The body of the loop: the salt goes out in front of the first packet. */
  method EmitChunk(vault: Vault, ghost t: Table, ghost file: Bytes, chunks: seq<Bytes>, fileSalt: Bytes, isLast: bool,
                   seals: seq<Sealing>, index: nat, packets: seq<Bytes>)
    returns (more: seq<Bytes>)
    requires |fileSalt| == FILE_SALT_LENGTH && FreshSeals(t, file, seals) && chunks == FileChunks(file)
    requires index < |seals| && isLast == (index == |seals| - 1)
    requires Progress(t, vault.table, fileSalt, chunks, seals, index, packets)
    modifies vault
    ensures Progress(t, vault.table, fileSalt, chunks, seals, index + 1, more)
  {
    AddsOneMore(t, vault.table, fileSalt, file, seals, index);
    var packed := SealInPlace(vault, chunks[index], fileSalt, index, isLast, seals[index]);
    ExtendStream(fileSalt, seals, index, packets);
    if index == 0 {
      more := packets + [fileSalt + packed];
    } else {
      more := packets + [packed];
    }
  }

  lemma Finished(t: Table, t': Table, salt: Bytes, file: Bytes, seals: seq<Sealing>, packets: seq<Bytes>)
    requires FreshSeals(t, file, seals) && Progress(t, t', salt, FileChunks(file), seals, |seals|, packets)
    ensures SealsFile(t', salt, file, seals) && Flatten(packets) == SaltedStream(salt, seals)
  {
    AllAdded(t, t', salt, file, seals);
    assert seals[..|seals|] == seals;
  }

  method IterateEncryptedChunks(vault: Vault, file: Bytes, fileSalt: Bytes, seals: seq<Sealing>)
    returns (packets: seq<Bytes>)
    requires |fileSalt| == FILE_SALT_LENGTH
    requires FreshSeals(vault.table, file, seals)
    modifies vault
    ensures SealsFile(vault.table, fileSalt, file, seals)
    ensures AddsOnly(old(vault.table), vault.table, fileSalt, FileChunks(file), seals, |seals|)
    ensures |packets| == |FileChunks(file)|
    ensures Flatten(packets) == SaltedStream(fileSalt, seals)
  {
    packets := [];
    var totalChunks := Max(1, CeilDiv(|file|, CHUNK_SIZE));
    CutCount(file, CHUNK_SIZE);
    var chunks := IterateFileChunks(file);
    var index := 0;
    while index < |chunks|
      invariant 0 <= index <= |chunks|
      invariant Progress(old(vault.table), vault.table, fileSalt, chunks, seals, index, packets)
    {
      var isLast := index == totalChunks - 1;
      packets := EmitChunk(vault, old(vault.table), file, chunks, fileSalt, isLast, seals, index, packets);
      index := index + 1;
    }
    Finished(old(vault.table), vault.table, fileSalt, file, seals, packets);
  }

  lemma {:induction false} PacketStreamLength(seals: seq<Sealing>, chunks: seq<Bytes>)
    requires |seals| == |chunks|
    requires forall i :: 0 <= i < |seals| ==>
             |seals[i].iv| == IV_LENGTH && |seals[i].ciphertext| == |chunks[i]| + GCM_TAG_LENGTH
    ensures |PacketStream(seals)| == |Flatten(chunks)| + |seals| * PACKET_OVERHEAD
  {
    if |seals| > 0 {
      PacketStreamLength(seals[1..], chunks[1..]);
    }
  }

  /** The emitted stream has exactly the length that the size arithmetic predicts. */
  lemma EmittedLength(t: Table, salt: Bytes, file: Bytes, seals: seq<Sealing>)
    requires |salt| == FILE_SALT_LENGTH && Sized(t) && SealsFile(t, salt, file, seals)
    ensures |SaltedStream(salt, seals)| == CiphertextSize(|file|)
    ensures |file| > 0 ==> PlaintextSize(|SaltedStream(salt, seals)|) == Some(|file|)
  {
    var chunks := FileChunks(file);
    FlattenCut(file, CHUNK_SIZE);
    CutCount(file, CHUNK_SIZE);
    forall i | 0 <= i < |seals|
      ensures |seals[i].ciphertext| == |chunks[i]| + GCM_TAG_LENGTH
    {
      var k := ChunkKey(salt, seals, i);
      assert k in t;
    }
    PacketStreamLength(seals, chunks);
    if |file| > 0 {
      PlaintextSizeInverts(|file|);
    }
  }
}
