# Anzdrop: verified models

This project models the parts of anzdrop, an end-to-end encrypted file drop, whose correctness depends on
buffers, interleavings or guarded database updates, and proves what the program promises of them. It is
plain Dafny 4.11; `dafny verify dfyconfig.toml` checks all of it.

How the source is modelled:

* Code that loops over buffers (chunking, packing, decryption with look-ahead, repartitioning, the cleanup
  walk, Base32, name assignment, the fold over prepayments, the statements of one database batch) is
  imperative Dafny: classes and methods with loop invariants, each proved against a specification.
* Code that other requests interleave with is a step system: one function per call or callback, `Step` to
  dispatch, `Run` over a list of events. Theorems quantify over all runs. An event may fail, a reply may be
  lost after the call took effect, and a request may die between calls wherever the program allows it.
* AES-GCM is an ideal AEAD: a table of sealed (nonce, ciphertext, associated data) entries. Opening anything
  that is not in the table fails. Random salts, nonces, claims, identifiers and tokens are fresh.

| file | what it models |
|---|---|
| `Bytes`, `Decimal` | byte strings, the one way of cutting them into equal pieces, decimal numerals |
| `Packet`, `Aead` | packets, associated data, size arithmetic, part-number limits, the ideal AEAD |
| `StreamEncrypt`, `StreamDecrypt`, `StreamTheorems` | the stream format: sending, receiving, round trips, integrity |
| `Repartition`, `UploadPool`, `UploadProgress`, `UploadFailures` | re-cutting into multipart parts; the worker pool with retries and fallback, its bounds, and when it retries, falls back and fails |
| `RangeServer`, `ParallelFetch`, `DownloadProgress` | byte ranges (section 14.1.2 of RFC 9110); the ordered parallel download, and when it can still finish |
| `Pipeline`, `UploadRegistration` | the whole transfer, end to end; which files can be registered |
| `UploadLifecycle`, `UploadInvariants`, `UploadSizes`, `UploadShares`, `UploadCleanups`, `UploadDatabase` | start, complete, cleanup and deletion between object storage and database |
| `CleanupBatches` | the keyset-paginated cleanup walk |
| `SecurityStore`, `SecurityRuns` | single-use challenges and the claimed batch that commits a security change |
| `Otp` | one-time-password attempt windows and used steps (section 5.2 of RFC 6238) |
| `DownloadCount` | counted downloads |
| `Subscription`, `SubscriptionRuns`, `SubscriptionSafety`, `SubscriptionProgress`, `PrepaymentRace` | webhook, sync, fallback, downgrade and Bitcoin prepayments of a subscription |
| `AsyncBuffer` | the bounded asynchronous buffer |
| `Base32` | Base32 on a wrapping 32-bit accumulator (section 6 of RFC 4648) |
| `DirectoryNames` | collision-free directory names |

Properties that turned out to need a condition, each with the condition proved exact, and runs that break it:

* A legacy, salt-free stream round-trips exactly when its first bytes do not happen to open as a salted first
  packet (`LegacyRoundTrip`); under an honest table that is the case when no salt in use is its prefix. A
  sixteen-byte legacy file whose stream does open as salted is given (`LegacyCanBeMistaken`).
* A normal return of the upload pool means a complete upload exactly when there is at least one worker or
  nothing to send (`CompleteNeedsAWorker`).
* The buffer can put both sides to sleep exactly when its capacity is zero (`NeverBothAsleep`), and from every
  state that nobody has interrupted the iteration can still end exactly when it is not (`CanEndNeedsRoom`). A
  source's throw is passed on exactly when it is truthy (`EndsAfterEverything`); a run in which a falsy one ends
  the iteration normally is given (`FalsyThrowEndsNormally`).
* From a reachable, not yet closed state a parallel download can still close, and then delivers everything,
  exactly when nothing has failed and nobody has cancelled (`ClosesUnlessSomethingFailed`).
* A counted file is kept until its last allowed delivery exactly when the limit is at most one, the only limit
  the program sets (`KeepsToTheLastIffSingle`).
* A downgrade keeps every live prepayment covered exactly when none recorded after it read the payments reaches
  beyond what it computed (`DowngradeKeepsPrepaid`); a racing payment can be lost (`RaceLosesPrepaid`).
* Among the statements of webhook, sync and prepayment an expiry is lowered only by a downgrade and by a
  prepayment's write, by the latter exactly when the account has come to reach beyond what it writes
  (`OnlyDowngradesLower`). In terms of the events: exactly when a card renewal that arrives between its read and
  its write ends after the end it computed (`PrepaymentLosesIff`); `ExtensionLosesRenewal` is such a run.
* Encoding and decoding Base32 gives the bytes back exactly when there are any (`EncodeThenDecode`).
* An object of sixteen bytes, a bare salt, passes the size arithmetic as an empty file although encrypting an
  empty file emits nothing (`PlaintextSizeAccepts`).

## Model

| member | source | states |
|---|---|---|
| `Packet.PackChunk` | lib/crypto/packet.ts:11-24 | packing fills one buffer so that unpacking it gives the nonce and ciphertext back |
| `Packet.UnpackIsInjective` | lib/crypto/packet.ts:27-48 | two packets that unpack to the same parts are the same bytes |
| `Packet.BuildChunkAad` | lib/crypto/aad.ts:15-30 | refuses a salt of the wrong length; otherwise salt, big-endian index on 32 bits and last flag, written in place |
| `Packet.ChunkAadLayout` | lib/crypto/aad.ts:15-30 | byte by byte: the salt, the index modulo 2^32 with its highest byte first, and one or zero for the last flag |
| `Packet.ChunkAadIsInjective` | lib/crypto/aad.ts:15-30 | equal associated data means equal salt, equal last flag and equal index modulo 2^32, and conversely |
| `Packet.PlaintextSizeInverts` | lib/crypto/packet.ts:62-108 | for every size above zero the plaintext-size function inverts the ciphertext-size function |
| `Packet.PlaintextSizeAccepts` | lib/crypto/packet.ts:62-83 | exactly which object sizes are accepted: those some plaintext has, and the bare sixteen-byte salt, taken as empty |
| `Packet.AllowedPartNumbers` | lib/upload/uploadSessionAuth.ts:52-64 | a part number is allowed exactly when minimum-size parts before it would not yet hold the declared size, or it is one |
| `Packet.HonestPartsAreAllowed` | lib/upload/uploadSessionAuth.ts:52-64 | cutting the encrypted stream of a file into parts never needs a number above the cap for its declared size |
| `Bytes.FlattenCut` | lib/crypto/stream.ts:10-29 | cutting into pieces loses and reorders nothing |
| `Bytes.CutIsEven` | lib/upload/chunkUploader.ts:47-64 | every piece but the last has exactly the piece size, the last is non-empty and no larger |
| `Bytes.EvenCutIsUnique` | lib/upload/chunkUploader.ts:47-64 | a list of that shape is the only cut of its bytes |
| `StreamEncrypt.IterateFileChunks` | lib/crypto/stream.ts:10-29 | the chunks read are the file's even cut |
| `StreamEncrypt.SealInPlace` | lib/crypto/stream.ts:48-52 | one chunk sealed under its salt, index and last flag, and packed |
| `StreamEncrypt.EmitChunk` | lib/crypto/stream.ts:46-66 | one turn: the next chunk is sealed in its place and follows on the wire, the salt in front of the first |
| `StreamEncrypt.IterateEncryptedChunks` | lib/crypto/stream.ts:37-67 | every chunk sealed in its place, nothing else sealed, and the salt once followed by the packets in order emitted; nothing for an empty file |
| `StreamEncrypt.EmittedLength` | lib/crypto/packet.ts:85-108 | the emitted stream has the predicted ciphertext size, from which the plaintext size comes back |
| `StreamDecrypt.Decryptor.FillTo` | lib/crypto/stream.ts:112-127 | reads until enough is buffered or the stream ends, losing and reordering nothing |
| `StreamDecrypt.Decryptor.Peek` | lib/crypto/stream.ts:131-143 | the first bytes of what is left, across pieces, without consuming them |
| `StreamDecrypt.Decryptor.Drop` | lib/crypto/stream.ts:145-161 | consumes exactly the first bytes of what is left |
| `StreamDecrypt.Decryptor.NextPacketBounds` | lib/crypto/stream.ts:167-182 | one byte of look-ahead decides the next packet's size and whether it is the last one |
| `StreamDecrypt.Decryptor.TrySaltedHead` | lib/crypto/stream.ts:199-235 | the first packet is consumed if and only if it opens in the salted format; otherwise everything is still there |
| `StreamDecrypt.Decryptor.NextPacket` | lib/crypto/stream.ts:240-271 | one packet opened, consumed and appended, as the specification's one step |
| `StreamDecrypt.Decryptor.DecodeRest` | lib/crypto/stream.ts:237-272 | the packet loop decodes whatever is left as the specification does |
| `StreamDecrypt.Decryptor.IterateDecryptedChunks` | lib/crypto/stream.ts:95-286 | for every fragmentation of the input, and a read failure anywhere, the outcome is the specification's on the joined bytes |
| `StreamTheorems.DecodeSealed` | lib/crypto/stream.ts:237-272 | packets sealed in their places decode to the file's chunks and end normally |
| `StreamTheorems.RoundTrip` | lib/crypto/stream.ts:37-286 | decrypting the emitted stream yields the file; with a wrong expected size it ends as truncated instead |
| `StreamTheorems.LegacyRoundTrip` | lib/crypto/stream.ts:199-272 | a salt-free stream comes back as its file exactly when it is not accepted as salted; with a wrong expected size it then ends as truncated instead |
| `StreamTheorems.EncryptingKeepsHonest` | lib/crypto/stream.ts:37-67 | encrypting a file under an unused salt keeps every table entry a chunk of the one file of its salt |
| `StreamTheorems.OpensOnlyInPlace` | lib/crypto/stream.ts:248-259 | a packet that opens at an index is that chunk of that file, and the last flag is true only of its last chunk |
| `StreamTheorems.DecodesInOrder` | lib/crypto/stream.ts:237-272 | arbitrary bytes after an accepted head decode to a prefix of the remaining chunks, all of them when the end is normal |
| `StreamTheorems.SaltedIntegrity` | lib/crypto/stream.ts:199-281 | once the first packet is accepted as salted, the output is a prefix of the one file sealed with that salt, and a normal end means the whole file, with or without an expected size |
| `StreamTheorems.LegacyUnderHonestTable` | lib/crypto/stream.ts:199-272 | under an honest table the fallback reads back every legacy stream that does not begin with a salt in use, and calls it truncated when another size was expected |
| `StreamTheorems.ExpectedSizeIsChecked` | lib/crypto/stream.ts:188-281 | for every table, input and read failure, and in both formats: an expected size changes no chunk, and a decryption that ended normally without one ends normally with it exactly when that many bytes came out, and as truncated otherwise |
| `StreamTheorems.LegacyCanBeMistaken` | lib/crypto/stream.ts:199-235 | the failing side of that round trip: a properly sealed legacy file whose stream opens as salted and does not come back |
| `StreamTheorems.FallbackYieldsOnlyUnbound` | lib/crypto/stream.ts:85-90 | nothing sealed in the new format slips through the fallback: for every table and every input not accepted as salted, each chunk that comes out was sealed without associated data |
| `StreamTheorems.NewFormatNeverFallsBack` | lib/crypto/stream.ts:85-90 | so under a key that sealed only in the new format such input yields nothing and never ends normally |
| `Repartition.Repartitioner.Take` | lib/upload/chunkUploader.ts:24-45 | removes exactly the first bytes of the pending pieces and returns them in one buffer |
| `Repartition.Repartitioner.Push` | lib/upload/chunkUploader.ts:49-54 | adds a piece at the end, dropping empty ones |
| `Repartition.Repartitioner.YieldFullParts` | lib/upload/chunkUploader.ts:56-59 | yields full parts with consecutive numbers until less than one part is pending |
| `Repartition.Repartitioner.Repartition` | lib/upload/chunkUploader.ts:13-65 | however the source is fragmented, the parts are the stream's even cut numbered from one; a source error loses less than one part |
| `UploadPool.StepMoves` | lib/upload/chunkUploader.ts:330-517 | what any event of a worker may change: it keeps, draws or reports its own part and fails only together with the pool |
| `UploadPool.StepKeepsInv` | lib/upload/chunkUploader.ts:330-517 | every drawn part is reported or held by one worker while no error is set, none is reported or held twice, and reported parts are recorded with their bytes |
| `UploadPool.AssembledParts` | server/routes/upload/complete/route.ts:120-146 | the recorded parts, completed in number order, are the concatenated bodies |
| `UploadPool.NormalReturnIsComplete` | lib/upload/chunkUploader.ts:277-529 | under every interleaving of workers, retries, lost replies and fallback, a normal return means parts one to k were each reported once and assemble to the source |
| `UploadPool.CompleteNeedsAWorker` | lib/upload/chunkUploader.ts:519-528 | that conclusion holds for all runs exactly when there is a worker or nothing to send |
| `UploadPool.LiveWorkersCanMove` | lib/upload/chunkUploader.ts:485-517 | a worker that has not ended is never stuck |
| `UploadPool.ReportedAtMostOnce` | lib/upload/chunkUploader.ts:368-371 | progress is reported at most once a part, and only for parts the server holds, even when the pool fails |
| `UploadProgress.AttemptsAreBounded` | lib/upload/chunkUploader.ts:330-482 | along every run a part is sent at most three times the configured number of attempts: put, acknowledgement and proxy |
| `UploadProgress.RunsAreBounded` | lib/upload/chunkUploader.ts:330-529 | no run goes on for ever: its length is bounded by the parts, the attempts and the workers |
| `UploadProgress.ErrorFreeRunsCanReturn` | lib/upload/chunkUploader.ts:485-529 | whatever happened before, from every reachable state without an error some continuation returns normally |
| `UploadFailures.FailsExactlyOn` | lib/upload/chunkUploader.ts:336-384 | an event makes a pool without an error fail exactly when the source throws, or the proxy was tried for the last time or refused for good |
| `UploadFailures.TroubleIsRetried` | lib/upload/chunkUploader.ts:354-463 | as long as attempts are left, no answer and a retryable refusal are met by the next attempt of the same kind at the same part, and any failed acknowledgement by another one |
| `UploadFailures.DirectTroubleFallsBack` | lib/upload/chunkUploader.ts:465-482 | direct sending that fails and is not retried goes on through the proxy from its first attempt and marks direct sending as unavailable; nothing else does |
| `UploadFailures.AcceptedGoesOn` | lib/upload/chunkUploader.ts:368-455 | an accepted put goes on to its acknowledgement, an accepted acknowledgement or proxy request reports the part |
| `UploadFailures.FailureStopsEverybody` | lib/upload/chunkUploader.ts:334-517 | once the pool has failed, a worker that goes on neither starts a request, nor draws, nor reports a part, nor switches to the proxy |
| `UploadFailures.LaterPartsUseTheProxy` | lib/upload/chunkUploader.ts:465-470 | once a part has fallen back, every part drawn in any later state goes through the proxy |
| `UploadFailures.PoolFailsOnlyForCause` | lib/upload/chunkUploader.ts:330-529 | over all runs a pool fails only if its source throws, or the proxy refused some part for good, or some part was sent through the proxy as often as allowed |
| `RangeServer.ParsePrinted` | server/routes/file/[fileId]/route.ts:64-100 | a range header as the client prints it parses to the range it names |
| `RangeServer.ParseOtherForms` | server/routes/file/[fileId]/route.ts:73-97 | a printed open-ended range and a printed suffix parse to what they name; a reversed range and a bare hyphen do not parse |
| `RangeServer.ParsesExactlyRanges` | server/routes/file/[fileId]/route.ts:64-100 | for any two strings of digits the header parses to what they name, missing ends, zero suffixes, reversed and unsafe numbers included |
| `RangeServer.ParsedIsARange` | server/routes/file/[fileId]/route.ts:64-69 | conversely, whatever parses is the unit, digits, a hyphen and digits, up to white space around them |
| `RangeServer.SpaceDoesNotMatter` | server/routes/file/[fileId]/route.ts:65 | white space before or after a header does not change how it parses |
| `RangeServer.ResolveServedRange` | server/routes/file/[fileId]/route.ts:131-158 | the served range lies within the object, whatever the storage reports |
| `RangeServer.ReportIsServed` | server/routes/file/[fileId]/route.ts:131-197 | exactly the bytes that the storage reports, in any of its three shapes, are served and labelled; no byte is refused; without a report the whole object is served |
| `RangeServer.RespondServesSelection` | server/routes/file/[fileId]/route.ts:64-197 | a well-formed range is answered with exactly the bytes it selects, labelled correctly, and refused exactly when it selects none |
| `RangeServer.RespondServesWhole` | server/routes/file/[fileId]/route.ts:102-197 | the whole object is served exactly when no header came or it does not parse |
| `RangeServer.ResolvedIsStable` | server/routes/file/[fileId]/route.ts:131-158 | normalising a resolved range again changes nothing |
| `RangeServer.ClampedReportIsEqual` | server/routes/file/[fileId]/route.ts:120-197 | a report of the clamped range and one of the requested range give the same response |
| `RangeServer.RespondToRequest` | server/routes/file/[fileId]/route.ts:351-385 | the client's own requests get the named bytes, clamped to the end of the object |
| `ParallelFetch.FetchRangeWithRetry` | lib/download/parallelFetch.ts:83-125 | at most four attempts, all but the last met transient trouble, and the last one's answer, abort or failure is the result |
| `ParallelFetch.RetryableCodes` | lib/download/parallelFetch.ts:42-44 | which status codes are tried again |
| `ParallelFetch.StepKeepsInv` | lib/download/parallelFetch.ts:224-355 | every callback keeps: enqueued windows in order, buffered ones in their place, the others scheduled or waiting, limits respected |
| `ParallelFetch.LimitsHold` | lib/download/parallelFetch.ts:243-311 | never more requests in flight than allowed, never more than two windows beyond that ahead; a sleeping consumer has a request in flight; and while nothing failed no slot idles unless every window is scheduled or the look-ahead is full |
| `ParallelFetch.FetchesAreNeverStuck` | lib/download/parallelFetch.ts:299-349 | every request in flight can make its next move, and its final callback wakes a sleeping consumer |
| `ParallelFetch.RequestFails` | lib/download/parallelFetch.ts:299-306 | a request that fails stops the download, drops what is buffered and lets every other request give up |
| `ParallelFetch.FailureIsReported` | lib/download/parallelFetch.ts:320-324 | the next time the consumer asks or wakes after a failure, the stream ends with an error |
| `ParallelFetch.CancelLetsGo` | lib/download/parallelFetch.ts:350-354 | cancelling drops what is buffered, lets every request in flight give up, and wakes a sleeping consumer, which then stops without enqueuing |
| `ParallelFetch.ClosedMeansWhole` | lib/download/parallelFetch.ts:208-356 | under every completion order what was enqueued is a prefix of the object, and all of it when the stream closes |
| `DownloadProgress.ClosesUnlessSomethingFailed` | lib/download/parallelFetch.ts:224-355 | from a reachable state that is not closed some continuation closes the stream exactly when it has not failed, was not cancelled and no request in flight has failed |
| `ParallelFetch.CreateSucceeds` | lib/download/parallelFetch.ts:138-195 | an object of at least one byte is delivered at once or through a well-formed window stream as soon as the first request is answered with content, for every window size and concurrency; only status 404 reports it gone |
| `Pipeline.UploadStoresStream` | lib/upload/chunkUploader.ts:277-529 | a pool that returns normally leaves the encrypted stream as the object, of the predicted size, in allowed parts only |
| `Pipeline.DownloadDeliversObject` | lib/download/parallelFetch.ts:138-356 | a download that ends normally delivered exactly the object |
| `Pipeline.TransferRoundTrip` | lib/crypto/stream.ts:37-286 | whatever the interleavings of upload and download, if both end normally the decrypted bytes are the file, checked against the size computed from the object |
| `UploadRegistration.UploadRegistersIffWithinLimit` | server/routes/upload/complete/route.ts:139-206 | the object left by a pool that returns normally can be registered, by any interleaving of start, complete, cleanup and deletion, exactly when the file is within the size limit |
| `UploadInvariants.ProcStable` | server/routes/upload/complete/route.ts:144-206 | what a request remembers between two calls survives every call of any other request |
| `UploadInvariants.CompletedKeeps` | server/routes/upload/complete/route.ts:139-146 | the storage completion happens at most once a multipart and makes its caller the only owner of the new object |
| `UploadInvariants.CommitKeeps` | server/routes/upload/complete/route.ts:188-206 | the owner's commit swaps the uploads row for a files row of the same object without leaving it untracked |
| `UploadInvariants.AbortKeeps` | lib/cleanup.ts:26-31 | after an abort, effective or reported missing, the multipart can never complete |
| `UploadInvariants.DeletedRowsAreSafe` | lib/cleanup.ts:75-87 | every uploads row a cleanup deletes has no object left or one that a files row holds, and every files row it deletes has lost its object |
| `UploadInvariants.ObjectsDeletedKeeps` | lib/cleanup.ts:71-73 | objects are deleted only by their owner or once registered, and never come back |
| `UploadInvariants.ObjectsPartlyDeletedKeeps` | lib/cleanup.ts:71-73 | a multi-key deletion that removes any part of the objects before failing keeps the whole invariant |
| `UploadInvariants.StepKeepsInv` | lib/cleanup.ts:26-90 | every call of start, complete, cleanup or one-time deletion keeps the whole invariant |
| `UploadInvariants.EveryObjectIsTracked` | lib/cleanup.ts:24-90 | in every reachable state every object's key is held by an uploads row or a files row |
| `UploadInvariants.OneFilePerSession` | server/routes/upload/complete/route.ts:144-219 | a session inserts at most one files row ever, and all its successful replies carry that row's identifier |
| `UploadInvariants.CompensationSparesFiles` | server/routes/upload/complete/route.ts:169-186 | the compensating deletion never hits a registered file's object, which stays until a route that deletes files removes it |
| `UploadInvariants.AnUploadSucceeds` | server/routes/upload/complete/route.ts:139-221 | an undisturbed upload within its limit ends registered, with its session gone and a successful reply |
| `UploadCleanups.StaleUploadIsForgotten` | lib/cleanup.ts:226-237 | an undisturbed stale cleanup of a session without an object, or with a registered one, ends with the session gone from both tables, its multipart not open, and everything else as it was |
| `UploadCleanups.UnregisteredObjectKeepsItsRow` | lib/cleanup.ts:33-38 | for any other session it stops after the abort, and every row stays |
| `UploadCleanups.ShareIsTakenDown` | lib/cleanup.ts:49-90 | from every reachable state an undisturbed deletion of a share that fits one batch, none of whose uploads has an unregistered object, removes the share with its rows and the objects of its files, and nothing of any other share |
| `UploadCleanups.OversizedIsRolledBack` | server/routes/upload/complete/route.ts:173-180 | the compensating deletion, undisturbed, leaves neither the object nor the rows of the session, and everything else as it was |
| `UploadCleanups.AnOversizedUploadLeavesNothing` | server/routes/upload/complete/route.ts:139-186 | so an undisturbed upload beyond its limit ends with no object, no session, no recorded part and no file |
| `UploadCleanups.OneTimeFileIsDeleted` | server/routes/file/[fileId]/route.ts:199-208 | one-time deletion, undisturbed, removes exactly the object and the row of its file |
| `UploadCleanups.FailedStartIsUndone` | server/routes/upload/start/route.ts:157-195 | a start whose row could not be inserted aborts its multipart upload and leaves no row |
| `UploadCleanups.UnsureStartIsAborted` | server/routes/upload/start/route.ts:163-195 | a start that inserted its row but saw an error aborts its multipart upload too; the row stays, for a cleanup to find |
| `UploadCleanups.CompletionNeedsAccess` | server/routes/upload/complete/route.ts:73-118 | a completion begins exactly for a session there is, in a share that is there and accessible |
| `UploadCleanups.SuspendedShareTakesNothing` | server/routes/upload/complete/route.ts:191-206 | a share suspended just before the commit takes no file, and the session stays unless its file was registered before |
| `UploadCleanups.ForeignReferenceStops` | lib/cleanup.ts:61-66 | a share is left as it is when a file that was not inspected names one of its objects |
| `UploadCleanups.SecondCompletionFindsTheFile` | server/routes/upload/complete/route.ts:147-154 | a completion whose multipart another one completed is answered with the file that one registered |
| `UploadSizes.StepKeepsSizes` | server/routes/upload/complete/route.ts:158-206 | every call keeps: a request at the size check remembers the object's size, one at the commit has checked it |
| `UploadSizes.RegisteredFilesFit` | server/routes/upload/complete/route.ts:158-206 | in every reachable state a registered file's object decodes to a plaintext size within the limit |
| `UploadSizes.OnlyCommitsRegister` | server/routes/upload/complete/route.ts:188-206 | a files row is only ever added by a commit into a share accessible at that moment, in exchange for the upload session, for a stored object whose size was checked and that no file holds yet |
| `UploadShares.StepKeepsShares` | lib/cleanup.ts:77-87 | every call keeps: the share of each uploads and files row exists |
| `UploadShares.RemovedSharesLeaveNothing` | lib/cleanup.ts:49-90 | in every reachable state, once a share's row is gone no object of any upload ever begun for it is stored |
| `UploadDatabase.Database.CommitUpload` | server/routes/upload/complete/route.ts:191-206 | the three guarded statements are all or nothing: the file is inserted exactly when the session is there, its share accessible and its key held by no file; then the session is gone from both tables, and the result says whether this request inserted |
| `UploadDatabase.Database.DeleteSession` | lib/cleanup.ts:232-237 | the session's rows are gone from both tables, every other row of the four tables stays, and no object but this session's can lose its tracking row |
| `UploadDatabase.Database.DeleteShareRows` | lib/cleanup.ts:77-87 | row by row, the four statements remove exactly the inspected files and uploads still in the share and their recorded parts, and the share exactly when nothing of it is left |
| `CleanupBatches.AboveMembers` | lib/cleanup.ts:200-208 | the page query sees exactly the rows beyond the cursor |
| `CleanupBatches.AboveAdvances` | lib/cleanup.ts:155-156 | moving the cursor to a row of the page leaves exactly the rows behind it |
| `CleanupBatches.AboveIgnoresVisited` | lib/cleanup.ts:121-123 | deleting rows at or before the cursor does not disturb the pages to come |
| `CleanupBatches.PageExtends` | lib/cleanup.ts:155-174 | a page shorter than the limit leaves no unvisited row |
| `CleanupBatches.Cleaner.VisitRow` | lib/cleanup.ts:155-168 | one row is deleted, or failed and kept, or stops the walk, and is counted accordingly |
| `CleanupBatches.Cleaner.VisitPage` | lib/cleanup.ts:155-168 | rows of a page in order, up to a hit work limit; each counted once, as processed, failed or a candidate, according to its own outcome, and exactly the rows whose deletion went through are gone |
| `CleanupBatches.Cleaner.WalkPage` | lib/cleanup.ts:150-174 | visiting a page moves the walk to its last row and keeps every row at or before the cursor visited |
| `CleanupBatches.Cleaner.NextPage` | lib/cleanup.ts:141-168 | one batch: rows others deleted meanwhile, the query, the visit; nothing else leaves the table, and a failed query visits nothing |
| `CleanupBatches.Cleaner.RunCleanupBatches` | lib/cleanup.ts:124-189 | rows visited in order, none twice, at most page size times pages; unless the limit is reported no row is left unvisited however many failed; an undisturbed run visits exactly that front of the table and reports the limit exactly when the table fills it |
| `SecurityStore.SecurityDb.CommitSecurityChange` | lib/account/securityStore.ts:104-123 | claim, guarded mutations, guarded version step and clean-up are all or nothing, a database error at any statement included; they succeed exactly when the row is there, in time, unclaimed, of that purpose, eligible, and of an account that still has the session version in the row, whose version then rises by one |
| `SecurityStore.SecurityDb.CreateAuthChallenge` | lib/account/securityStore.ts:41-54 | the new challenge is usable until it expires and no longer, no snapshot of the browser's previous one is usable at any time, of the others exactly those in time stay, and their usability does not change |
| `SecurityStore.SecurityDb.ConsumeAuthChallenge` | lib/account/securityStore.ts:65-69 | succeeds exactly when the row is there, in time, unclaimed, of that purpose, and its account, if any, exists with the session version in the row; then no snapshot of it, whenever read, is usable at any time, and every other row is untouched |
| `SecurityStore.SecurityDb.TransitionAuthChallenge` | lib/account/securityStore.ts:71-77 | succeeds exactly when the row is there, in time, unclaimed, of that purpose, and its account exists with the session version in the row; then the snapshot that moved it is used up, the moved one is usable until the new expiry and no longer, and every other row is untouched |
| `SecurityStore.SecurityDb.DeleteExpiredAuthChallenges` | lib/account/securityStore.ts:34-35 | exactly the rows still in time stay, unchanged, and no snapshot becomes usable or unusable by it |
| `SecurityStore.SecurityDb.Recover` | server/routes/account/recover/route.ts:68-91 | the batch succeeds exactly when version and recovery value are as read; then the version rises, the recovery value is replaced, and exactly this account loses its passkeys, one-time-password row and challenges; otherwise nothing changes |
| `SecurityRuns.StepKeepsInv` | lib/account/securityStore.ts:34-123 | every batch keeps: no claim left behind, snapshots faithful, spent challenges gone, versions counted, at most ten passkeys |
| `SecurityRuns.ChallengesAreSingleUse` | lib/account/securityStore.ts:65-123 | over all runs each challenge is spent at most once, by one commit or one consumption |
| `SecurityRuns.VersionsCountChanges` | lib/account/securityStore.ts:116-122 | an account's session version is raised by exactly one for each committed change and each recovery, and by nothing else |
| `SecurityRuns.OneChangePerVersion` | lib/account/securityStore.ts:108-122 | no two committed changes of one account start from the same version |
| `SecurityRuns.CommitIsAllOrNothing` | lib/account/securityStore.ts:102-123 | in every reachable state a commit meets its method's preconditions, changes nothing or applies everything, and succeeds exactly under its guard |
| `SecurityRuns.AChangeGoesThrough` | lib/account/securityStore.ts:41-123 | from every state, undisturbed: a challenge made for the current version, read and committed, makes its eligible change, raises the version by one, is logged and leaves no challenge of the account |
| `SecurityRuns.AMoveGoesThrough` | lib/account/securityStore.ts:71-77 | likewise a challenge that is moved on is there with its new purpose and expiry, and the snapshot it was moved from is used up |
| `SecurityRuns.AConsumptionGoesThrough` | lib/account/securityStore.ts:65-69 | likewise a sign-in that consumes its challenge: it is gone, and nothing of the account changes |
| `SecurityRuns.RecoveryTakesEverything` | server/routes/account/recover/route.ts:68-91 | in the runs a recovery takes effect exactly when the account is as it was read; it raises the version, removes every factor and challenge of the account and nobody else's |
| `SecurityRuns.SweepSparesTheRest` | lib/account/securityStore.ts:34-35 | in the runs the sweep removes exactly the challenges whose time is over |
| `SecurityRuns.CommitRevokesChallenges` | lib/account/securityStore.ts:117-120 | after a commit no snapshot of the account read before it is usable in any later state |
| `SecurityRuns.OtherVersionAuthorisesNothing` | lib/account/securityStore.ts:65-123 | in every reachable state a snapshot whose account is gone or has another session version than the snapshot neither consumes, moves on nor commits anything |
| `SecurityRuns.OutdatedForEver` | lib/account/securityStore.ts:108-116 | and once the version has passed the one in the snapshot this stays so in every later state |
| `SecurityRuns.ChangesStayWithinTheAccount` | lib/account/securityHandlers.ts:114-165 | an eligible change has its effect, passkey added or removed, secret set or removed, and leaves the factors of every other account and all other passkeys alone |
| `SecurityRuns.EligibleChanges` | lib/account/securityHandlers.ts:114-165 | when each change is eligible: a tenth passkey can be added, only one's own removed, a secret set only where none is, and removed only where one is |
| `SecurityRuns.OtpRowsSpareSecrets` | lib/account/securityStore.ts:36-38 | the attempt counter's row is inserted when missing and swept while it has no secret, without touching a secret or another account |
| `SecurityRuns.PasskeysStayWithinLimit` | lib/account/securityHandlers.ts:114-119 | no account ever holds more than ten passkeys, however many registrations race |
| `Otp.TotpTable.ReserveOtpAttempt` | lib/account/securityStore.ts:79-88 | an attempt is granted exactly while one of five is left in the window and uses up one; the window moves, to now, only when it was over; secret and last step stay; a refusal means five attempts in a running window and changes nothing |
| `Otp.TotpTable.VerifyAccountOtp` | lib/account/securityStore.ts:90-100 | an attempt is spent whatever the code is, and a step is accepted exactly when its code was typed, the account still has that secret and session version, and the step is past the last one |
| `Otp.MatchTotpStep` | lib/account/totp.ts:53-64 | the step found is one of the three around now, none below zero, its code was typed and no newer one of the three has that code; none is found exactly when no code of the three was typed |
| `Otp.FiveAttemptsAWindow` | lib/account/securityStore.ts:79-88 | the sixth granted attempt after any is counted in a later, disjoint window |
| `Otp.TenAttemptsAnyFiveMinutes` | lib/account/securityStore.ts:79-88 | no five-minute interval sees more than ten granted attempts |
| `Otp.TenAttemptsHappen` | lib/account/securityStore.ts:79-88 | a run that reaches ten: the bound is tight |
| `Otp.RefusedOnlyWhenSpent` | lib/account/securityStore.ts:79-88 | an attempt is refused exactly when five were granted in the window still running |
| `Otp.StepsAreUsedOnce` | lib/account/securityStore.ts:90-100 | the steps accepted for one secret strictly increase over every run, the enrolling code included |
| `Otp.AcceptsOnlyLaterSteps` | lib/account/securityStore.ts:96-98 | the accepting update takes effect exactly with the stored secret, an unchanged session version and a later step, and writes only that step |
| `Otp.EnrolsOnlyOnce` | lib/account/securityHandlers.ts:155-157 | enrolling takes effect exactly on a row that has no secret yet, sets secret and used step and keeps the attempts of the window |
| `Otp.SweepSparesSecrets` | lib/account/securityStore.ts:36-38 | the sweep removes exactly a row without a secret whose window is over while no set-up is under way |
| `DownloadCount.FileRow.CountDownload` | server/routes/file/[fileId]/route.ts:387-409 | granted exactly below the limit, adding one; final exactly when it reaches the limit |
| `DownloadCount.FileRow.RestoreDownloadCount` | server/routes/file/[fileId]/route.ts:214-223 | the count falls by one exactly when above zero, so it undoes exactly one granted addition; a row that is gone stays gone |
| `DownloadCount.CountIsConserved` | server/routes/file/[fileId]/route.ts:387-493 | deliveries, requests in progress and lost give-backs never exceed the limit and are exactly the count while the row exists |
| `DownloadCount.ObjectIsFetched` | server/routes/file/[fileId]/route.ts:411-441 | a counted request streams exactly when the object is there and the read succeeds; otherwise it gives its count back |
| `DownloadCount.TransferEnds` | server/routes/file/[fileId]/route.ts:470-491 | a transfer that sent every byte is a delivery, however its pipe ended, and only the final one goes on to delete; one that failed earlier is not, and its give-back lowers the count by one |
| `DownloadCount.DeletionGoesOn` | server/routes/file/[fileId]/route.ts:199-208 | a deletion that succeeds removes the object first and then the row, which another route may have removed already |
| `DownloadCount.FailuresEndTheRequest` | server/routes/file/[fileId]/route.ts:214-236 | a give-back or deletion that fails is not tried again and changes nothing but the number of lost give-backs |
| `DownloadCount.GrantedWhileUnused` | server/routes/file/[fileId]/route.ts:387-409 | so a download is granted exactly while part of the limit is neither delivered, in progress nor lost |
| `DownloadCount.DeletedOnlyAfterDelivery` | server/routes/file/[fileId]/route.ts:453-491 | the route deletes the file only for the final claim and after a delivery, its row only after its object; every counted delivery was of all bytes |
| `DownloadCount.FinalOvertakes` | server/routes/file/[fileId]/route.ts:453-491 | for every limit a run in which the final claim deletes the file after a single delivery |
| `DownloadCount.KeepsToTheLastIffSingle` | server/routes/file/[fileId]/route.ts:453-491 | no run deletes a file with deliveries left exactly when the limit is at most one |
| `Subscription.LastEndIsLeast` | lib/billing/cardPlan.ts:117-123 | the computed expiry is the least one not before now nor before any end beyond now that the account itself has a paid prepayment for |
| `Subscription.BestPlanIsHighest` | lib/billing/cardPlan.ts:118-129 | premium exactly when the account itself has paid for "premium" or the old "paid" beyond now, else standard exactly when it has paid for "standard", else free |
| `Subscription.OthersPaymentsDoNotCount` | lib/billing/cardPlan.ts:103-130 | an account without a paid prepayment of its own that ends beyond now gets free until now, whatever others have paid |
| `Subscription.Billing.Activate` | server/routes/billing/stripe/webhook/route.ts:83-92 | the accounts tracking the subscription, and no others, get the plan and the latest of their expiry and the period end; the number of rows matched |
| `Subscription.RaisedForIsActivated` | server/routes/billing/stripe/webhook/route.ts:83-92 | that outcome is unique: it is the update that the runs' webhook and sync steps make |
| `Subscription.Billing.NextPaidState` | lib/billing/cardPlan.ts:117-130 | the loop computes exactly that expiry and plan |
| `Subscription.Billing.DowngradeExpiredCardPlan` | lib/billing/cardPlan.ts:83-143 | the account, given or looked up, is downgraded to what its own prepayments still cover if it still tracks the subscription, to free until now when there are none; otherwise nothing changes |
| `Subscription.Billing.ClearNeverActivatedSubscriptionPointer` | lib/billing/cardPlan.ts:36-60 | afterwards nobody points to the subscription; plans, expiries and all other accounts stay |
| `Subscription.Billing.AttachByMetadata` | server/routes/billing/stripe/webhook/route.ts:105-224 | the account named by the metadata is attached exactly when it is there, the subscription has not ended, no other active one is tracked and the expiry does not go back; without an answer from Stripe it fails and changes nothing |
| `Subscription.Billing.ApplyEvent` | server/routes/billing/stripe/webhook/route.ts:49-287 | every kind of event has exactly its effect on all accounts, and the handler fails, changing nothing, exactly when Stripe leaves a question unanswered |
| `Subscription.EndedMeans` | server/routes/billing/stripe/webhook/route.ts:227-284 | a deleted, dead or never activated subscription, for each answer of Stripe: its pointer is cleared everywhere and nothing else changes, or an account that tracks it falls back to what its prepayments cover, or nothing happens |
| `Subscription.RunningMeans` | server/routes/billing/stripe/webhook/route.ts:64-103 | a running subscription with plan and period end gives each account that tracks it that plan and the later of its expiry and the end, and leaves the others alone |
| `Subscription.MetadataMeans` | server/routes/billing/stripe/webhook/route.ts:105-224 | a running subscription that nobody tracks is attached to the account of its metadata exactly when it has not ended meanwhile, no other one that Stripe calls active is tracked, and the expiry does not go back; nothing else changes |
| `Subscription.UnansweredMeans` | server/routes/billing/stripe/webhook/route.ts:105-284 | the handler fails exactly when Stripe does not say how an ended subscription ended, whether the one to attach has ended, or whether the other one tracked is active |
| `Subscription.OthersMeanNothing` | server/routes/billing/stripe/webhook/route.ts:49-287 | an event of any other kind, an intermediate status, or a running one without plan or period end changes no account |
| `Subscription.OnlyEndingEventsLower` | server/routes/billing/stripe/webhook/route.ts:49-287 | of all events only an ending one lowers an expiry, only of an account that tracks the subscription, and only to what prepayments cover |
| `Subscription.Billing.ProcessEventOnce` | server/routes/billing/stripe/webhook/route.ts:289-319 | a marked event changes nothing; any other event has its handler's effect; marks follow success only, so a failure leaves the event to be delivered again |
| `SubscriptionSafety.StepKeeps` | server/routes/billing/btc/webhook/route.ts:60-111 | every statement of webhook, fallback, sync, downgrade and prepayment keeps: each waiting extension belongs to its own payment with an open end, and each waiting downgrade writes what the payments it read cover |
| `SubscriptionSafety.OnlyDowngradesLower` | server/routes/billing/stripe/webhook/route.ts:64-226 | over all runs webhook and sync lower an expiry only by a downgrade of the account that still tracks the ended subscription, to the later of a past now and the last prepaid end it read; a prepayment's write lowers one exactly when the account, overtaken since it was read, reaches beyond what it writes |
| `SubscriptionRuns.FinalExpiryIsLatest` | server/routes/billing/stripe/sync/route.ts:157-179 | from any state whose waiting requests spare the account, over any events that neither move its pointer, downgrade it nor extend it by a prepayment, it goes on tracking the subscription and its final expiry is the latest of the starting one and the ends its updates carry |
| `SubscriptionRuns.SameEndsSameExpiry` | server/routes/billing/stripe/sync/route.ts:160-179 | two such event lists whose updates carry the same set of ends leave the same final expiry |
| `SubscriptionRuns.OrderAndRepetitionDoNotMatter` | server/routes/billing/stripe/webhook/route.ts:64-92 | any reordering and any repetition of such events leaves the same final expiry |
| `SubscriptionRuns.RedeliveryChangesNothing` | server/routes/billing/stripe/webhook/route.ts:315-318 | an active event delivered again, at any later time and after any such events, changes no expiry |
| `SubscriptionSafety.MarkedEventsCount` | server/routes/billing/stripe/webhook/route.ts:289-319 | once an event that reports a period end is marked, the tracking account's expiry reaches that end, however deliveries were repeated, overtaken or lost their mark |
| `SubscriptionProgress.DeliveriesAreChecked` | server/routes/billing/stripe/webhook/route.ts:289-319 | in the runs a delivery is admitted exactly when its event is not marked, and only an event handled to the end is marked |
| `SubscriptionSafety.FallbackTakesOnlyIdleAccounts` | server/routes/billing/stripe/webhook/route.ts:105-224 | the fallback re-points an account only to a subscription found running, away from none or one found inactive, and never lowers its expiry |
| `SubscriptionProgress.WebhookUpdates` | server/routes/billing/stripe/webhook/route.ts:64-116 | in the runs an active update raises everybody who tracks the subscription and is done, and only when nobody does goes on to the account its metadata names |
| `SubscriptionProgress.PointersMove` | lib/billing/cardPlan.ts:36-60 | in the runs clearing removes exactly the named pointers to the subscription, and subscribing sets exactly one; plans and expiries stay |
| `SubscriptionProgress.FallbackAttachesIff` | server/routes/billing/stripe/webhook/route.ts:105-224 | from every state, undisturbed, a waiting fallback attaches its account to plan, end and subscription exactly when the subscription has not ended and the account may be taken; otherwise it ends and changes no account |
| `SubscriptionProgress.DowngradeFallsBack` | lib/billing/cardPlan.ts:103-142 | an undisturbed downgrade leaves exactly the account that tracks the subscription with what its prepayments cover and no pointer |
| `SubscriptionProgress.PrepaymentExtends` | server/routes/billing/btc/webhook/route.ts:85-111 | an undisturbed prepayment gives its account the higher of the effective and the paid plan, adds its length to the later of now and the running expiry, and records that end |
| `SubscriptionSafety.DowngradeKeepsPrepaid` | lib/billing/cardPlan.ts:103-142 | the write covers every live prepayment exactly when those whose end was recorded since it read them end no later than what it computed |
| `SubscriptionSafety.RaceLosesPrepaid` | lib/billing/cardPlan.ts:103-142 | a run in which a payment made, applied and recorded in between is cut short |
| `SubscriptionSafety.ExtensionLosesRenewal` | server/routes/billing/btc/webhook/route.ts:85-105 | a run in which a card renewal between a prepayment's read and its write is overwritten with an earlier expiry |
| `PrepaymentRace.WriteLowersIff` | server/routes/billing/btc/webhook/route.ts:101-105 | whatever spares the account while a prepayment is about to write, the write lowers the expiry exactly when an active update that arrived meanwhile carries an end beyond what it writes |
| `PrepaymentRace.PrepaymentLosesIff` | server/routes/billing/btc/webhook/route.ts:85-105 | the same from the read on: paid time is lost exactly when a renewal between read and write ends after the end computed from what was read |
| `AsyncBuffer.StepKeepsInv` | lib/asyncBuffer.ts:31-109 | every resumption of producer, consumer, source or caller keeps the buffer's invariant |
| `AsyncBuffer.OrderAndCapacity` | lib/asyncBuffer.ts:34-52 | the queue never exceeds the capacity, the output is a prefix of the source in order, and nothing is lost while nobody stops it |
| `AsyncBuffer.EndsAfterEverything` | lib/asyncBuffer.ts:72-96 | unless interrupted it ends only after every item was delivered, and throws exactly when the source threw a truthy value |
| `AsyncBuffer.CanEndNeedsRoom` | lib/asyncBuffer.ts:35-96 | from every reachable state that nobody has interrupted some continuation ends the iteration uninterrupted, exactly when the capacity is at least one |
| `AsyncBuffer.InterruptedCanEnd` | lib/asyncBuffer.ts:62-108 | from every reachable state in which somebody has interrupted it some continuation ends the iteration without another item, whatever the capacity |
| `AsyncBuffer.StoppedSourceReturns` | lib/asyncBuffer.ts:55-59 | a producer that ends because it was stopped asks the source to return and waits for that; any other just ends |
| `AsyncBuffer.ClosingDoesNotWaitForItems` | lib/asyncBuffer.ts:89-108 | in every reachable state, closing the iteration waits for the producer unless that waits for the source's next item, and a source that fails to return makes a waiting close, or the end, throw |
| `AsyncBuffer.FalsyThrowEndsNormally` | lib/asyncBuffer.ts:54-96 | a run in which the source throws a falsy value and the iteration ends normally with everything delivered |
| `AsyncBuffer.NeverBothAsleep` | lib/asyncBuffer.ts:35-79 | producer and consumer can both sleep exactly when the capacity is zero |
| `AsyncBuffer.SleepersAreWoken` | lib/asyncBuffer.ts:17-79 | no wake-up is lost: whatever a sleeper waits for rouses it |
| `Base32.IndexOfIsPosition` | lib/account/totp.ts:3 | looking a symbol up gives its position in the alphabet |
| `Base32.ShiftInQueues` | lib/account/totp.ts:8-9 | what wraps off the 32-bit accumulator was no longer queued |
| `Base32.EncodeBase32` | lib/account/totp.ts:5-17 | the symbols spell the bytes followed by fewer than five zero bits |
| `Base32.DecodeBase32` | lib/account/totp.ts:19-32 | refuses exactly the empty string and foreign symbols; otherwise the whole bytes the symbols spell |
| `Base32.RoundTrip` | lib/account/totp.ts:5-32 | bytes read back from what spells them are the bytes |
| `Base32.EncodeThenDecode` | lib/account/totp.ts:5-32 | decoding an encoding gives the bytes back exactly when there are any |
| `DirectoryNames.FilenameFromPath` | lib/download/saveFile.ts:167-173 | the result is never empty, a dot name or a path |
| `DirectoryNames.FilenameIsLastSegment` | lib/download/saveFile.ts:167-173 | a proper name is kept, and a directory in front of it, after either separator, or a separator behind it is dropped |
| `DirectoryNames.OtherwiseDownload` | lib/download/saveFile.ts:167-173 | an empty name, a dot name and a path that ends in one become "download" |
| `DirectoryNames.NumberGoesBeforeExtension` | lib/download/zipDownload.ts:3-13 | the number goes before the last extension; a name without one, or with nothing in front of its dot, gets it at the end |
| `DirectoryNames.NormalisersDistinguish` | lib/download/saveFile.ts:179-190 | every key that, like NFC with full lower-casing, treats what stands before and after the number each on its own and leaves space, parentheses and digits alone gives differently numbered names different keys |
| `DirectoryNames.FoldsDistinguish` | lib/download/saveFile.ts:179-180 | so does every fold of single characters that leaves digits alone |
| `DirectoryNames.FreeName` | lib/download/saveFile.ts:184-190 | the loop terminates with the smallest number whose key is unused |
| `DirectoryNames.AssignDirectoryNames` | lib/download/saveFile.ts:175-195 | terminates on every list, with pairwise distinct collision keys and the smallest free number for each |
| `DirectoryNames.AssignedNamesFit` | lib/download/zipDownload.ts:3-13 | every assigned name can stand in the directory, and a file keeps its own name exactly when its key was unused |

## Left out

* WebCrypto, Argon2, HMAC, JWT, WebAuthn, HTTP, Turnstile, rate limits, presigned URLs, Stripe and OpenNode clients: only their success, failure, "missing" or status outcomes occur, as free choices of the run.
* Abort signals and timing: an `AbortSignal` during encryption, decryption or repartitioning, backoff delays and timeouts; attempts are counted, not timed.
* Ciphertexts sealed without associated data under the same key (file names): the integrity theorem speaks of streams whose first packet was accepted with associated data, with fewer than 2^32 chunks.
* Interleavings of `repartition`, the pool, the parallel download, the buffer, the upload routes, the challenge, attempt, counting and subscription protocols are step functions over values, not classes; the classes beside them show that each database batch is the step it is modelled by.
* `uploadChunksFromStream`: URL batching (`createPartUrlBatcher`) and closing the generator after a failure.
* `upload_parts`: the lifecycle model keeps only which sessions have recorded parts; their contents are in the pool model.
* `fetchRangeWithRetry` and the window stream: windows and concurrency are whole numbers; sizes above `Number.MAX_SAFE_INTEGER` do not occur.
* `Math.ceil` and `/` on sizes are exact integer operations; floating-point rounding of sizes beyond 2^53 does not occur.
* `parseSingleRange`: trimming is of ASCII white space, not of every Unicode space.
* `expires_at`, `plan_expires_at` and other ISO strings are integers in the same order.
* `reserveOtpAttempt`, `verifyAccountOtp`: one account at a time; the session-version condition of the accepting update is a free choice; bounds on grants are since the row was last erased by disabling or recovery.
* `deleteExpiredAuthChallenges` on OTP rows: whether a set-up is under way is a free choice.
* Accounts are neither created nor deleted in the challenge runs.
* `runScheduledCleanup` and the share and upload queries: only the shared batch loop and the two handlers are modelled; the work-limit budget is a free choice of each call.
* Stripe objects: statuses, period ends, plans and metadata come as the values the program derives from them; in the runs, which branch a webhook event takes is a free choice of the run, in `ApplyEvent` it follows from the event.
* The order of a downgrade's look-up by subscription when several accounts track one: any of them.
* The admin route's manual grants and revocations (server/routes/admin/accounts/[accountId]/route.ts): they may set any plan and expiry, deliberately without a guard.
* A plan column may go back when active events arrive out of order; only expiries are proved order-independent.
* `safeRestoreDownloadCount` logging, HEAD requests, uncounted full downloads.
* `assignZipNames`: it does not compare generated names with later originals, so no uniqueness is claimed.
* `collisionKey`: the Unicode tables of NFC and case mapping; that they treat a numbered name as `NormalisersDistinguish` requires is taken from the Unicode standard (section 3.11 and section 3.13), not proved.
* `totpAtStep`: the code of a step is an uninterpreted predicate.
* Password lockout, reports, billing pages, admin lists, user interface, analytics, ZIP writing.
