/** The whole transfer: encryption, the upload pool, the stored object, the parallel download, decryption. */
module Pipeline {
  import opened Bytes
  import opened Packet
  import opened Aead
  import opened StreamEncrypt
  import opened StreamDecrypt
  import opened StreamTheorems
  import UploadPool
  import ParallelFetch
  import opened RangeServer

  /** The pool's job for an encrypted file: the stream's parts, and no error in their iteration. */
  predicate UploadsStream(job: UploadPool.Job, salt: Bytes, seals: seq<Sealing>) {
    job.bodies == Cut(SaltedStream(salt, seals), UPLOAD_PART_SIZE)
  }

  /** The object that completing the upload assembles from the recorded parts. */
  function StoredObject(job: UploadPool.Job, concurrency: nat, events: seq<UploadPool.Event>): Option<Bytes>
    requires UploadPool.Run(job, UploadPool.Start(concurrency), events).Some?
  {
    var s := UploadPool.Run(job, UploadPool.Start(concurrency), events).value;
    if forall p :: 1 <= p <= |job.bodies| ==> p in s.recorded then Some(UploadPool.Assembled(s.recorded, |job.bodies|))
    else None
  }

  /** What a download of `data` that ended normally delivered. */
  ghost predicate Downloads(data: Bytes, windowSize: nat, concurrency: nat, received: Bytes)
    requires windowSize > 0
  {
    exists first :: DeliversAfter(data, first, windowSize, concurrency, received)
  }

  /** The first request came to `first`, and what followed delivered `received`. */
  ghost predicate DeliversAfter(data: Bytes, first: ParallelFetch.FetchResult, windowSize: nat, concurrency: nat,
                                received: Bytes)
    requires windowSize > 0
  {
    && ParallelFetch.FromServer(data, windowSize, first)
    && Delivers(ParallelFetch.Create(data, first, windowSize, concurrency), received)
  }

  ghost predicate Delivers(created: ParallelFetch.Created, received: Bytes) {
    match created
    case Single(bytes) => received == bytes
    case Windows(job) => exists events :: DownloadRun(job, events, received)
    case _ => false
  }

  ghost predicate DownloadRun(job: ParallelFetch.Job, events: seq<ParallelFetch.Event>, received: Bytes) {
    && job.Valid()
    && ParallelFetch.Run(job, ParallelFetch.Start(job), events).Some?
    && var s := ParallelFetch.Run(job, ParallelFetch.Start(job), events).value;
    && s.status.Closed?
    && received == Flatten(s.enqueued)
  }

  /** A pool that returns normally leaves the encrypted stream, of the predicted size, in allowed parts. */
  lemma UploadStoresStream(t: Table, salt: Bytes, file: Bytes, seals: seq<Sealing>,
                           job: UploadPool.Job, concurrency: nat, events: seq<UploadPool.Event>)
    requires |salt| == FILE_SALT_LENGTH && Sized(t) && SealsFile(t, salt, file, seals)
             && UploadsStream(job, salt, seals)
    requires concurrency > 0 && UploadPool.Run(job, UploadPool.Start(concurrency), events).Some?
    requires UploadPool.ReturnsNormally(UploadPool.Run(job, UploadPool.Start(concurrency), events).value)
    ensures StoredObject(job, concurrency, events) == Some(SaltedStream(salt, seals))
    ensures |SaltedStream(salt, seals)| == CiphertextSize(|file|)
    ensures forall p :: 1 <= p <= |job.bodies| ==> IsPartNumberAllowed(p, |file|)
  {
    UploadPool.NormalReturnIsComplete(job, concurrency, events);
    EmittedLength(t, salt, file, seals);
    FlattenCut(SaltedStream(salt, seals), UPLOAD_PART_SIZE);
    CutCount(SaltedStream(salt, seals), UPLOAD_PART_SIZE);
    forall p | 1 <= p <= |job.bodies|
      ensures IsPartNumberAllowed(p, |file|)
    {
      HonestPartsAreAllowed(|file|, p);
    }
  }

  /** A download that ends normally delivered exactly the object. */
  lemma DownloadDeliversObject(data: Bytes, windowSize: nat, concurrency: nat, received: Bytes)
    requires 0 < windowSize && windowSize - 1 <= MAX_SAFE_INTEGER && concurrency > 0 && 0 < |data| <= MAX_SAFE_INTEGER
    requires Downloads(data, windowSize, concurrency, received)
    ensures received == data
  {
    var first :| DeliversAfter(data, first, windowSize, concurrency, received);
    ParallelFetch.CreateSucceeds(data, first, windowSize, concurrency);
    if |data| > windowSize {
      var job := ParallelFetch.Create(data, first, windowSize, concurrency).job;
      var events :| DownloadRun(job, events, received);
      ParallelFetch.ClosedMeansWhole(job, events);
    }
  }

  /** The pool returned normally, and a download of the object it left ended normally. */
  ghost predicate Transferred(job: UploadPool.Job, workers: nat, upload: seq<UploadPool.Event>,
                              windowSize: nat, requests: nat, received: Bytes)
    requires windowSize > 0
  {
    && UploadPool.Run(job, UploadPool.Start(workers), upload).Some?
    && UploadPool.ReturnsNormally(UploadPool.Run(job, UploadPool.Start(workers), upload).value)
    && StoredObject(job, workers, upload).Some?
    && Downloads(StoredObject(job, workers, upload).value, windowSize, requests, received)
  }

  /**
   * For every non-empty file: whatever the interleaving of upload workers, retries and fallbacks, and
   * whatever the completion order of the download's requests, if the pool returns normally and the
   * download closes normally, decrypting what arrived yields the file, and its length is the one
   * computed from the object's size.
   */
  lemma TransferRoundTrip(t: Table, salt: Bytes, file: Bytes, seals: seq<Sealing>,
                          job: UploadPool.Job, workers: nat, upload: seq<UploadPool.Event>,
                          windowSize: nat, requests: nat, received: Bytes)
    requires |salt| == FILE_SALT_LENGTH && |file| > 0 && CiphertextSize(|file|) <= MAX_SAFE_INTEGER
    requires workers > 0 && requests > 0 && 0 < windowSize && windowSize - 1 <= MAX_SAFE_INTEGER
    requires Sized(t) && SealsFile(t, salt, file, seals) && UploadsStream(job, salt, seals)
    requires Transferred(job, workers, upload, windowSize, requests, received)
    ensures var d := Decrypt(t, received, false, PlaintextSize(|received|));
            d.outcome == Done && Flatten(d.chunks) == file
  {
    UploadStoresStream(t, salt, file, seals, job, workers, upload);
    EmittedLength(t, salt, file, seals);
    DownloadDeliversObject(SaltedStream(salt, seals), windowSize, requests, received);
    RoundTrip(t, salt, file, seals, PlaintextSize(|received|));
  }
}
