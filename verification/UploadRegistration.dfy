/** The transfer and the upload's lifecycle together: which files get registered. */
module UploadRegistration {
  import opened Bytes
  import opened Packet
  import opened Aead
  import opened StreamEncrypt
  import Pipeline
  import UploadPool
  import UploadLifecycle
  import UploadInvariants
  import UploadSizes

  /** The run checks sizes against the limit, and ends with a registered file whose object has this size. */
  ghost predicate RunRegisters(events: seq<UploadLifecycle.Event>, size: nat, limit: nat) {
    && UploadSizes.Limited(events, limit)
    && UploadLifecycle.Run(UploadLifecycle.Init(), events).Some?
    && var s := UploadLifecycle.Run(UploadLifecycle.Init(), events).value;
    exists file :: file in s.files && s.files[file].key in s.objects && s.objects[s.files[file].key] == size
  }

  ghost predicate CanRegister(size: nat, limit: nat) {
    exists events :: RunRegisters(events, size, limit)
  }

  /** Every run that registers an object has checked its plaintext size, and an undisturbed one gets there. */
  lemma RegistersIffItFits(size: nat, limit: nat)
    ensures CanRegister(size, limit) <==> UploadSizes.Fits(size, limit)
  {
    if UploadSizes.Fits(size, limit) {
      UploadInvariants.AnUploadSucceeds(size, limit);
      assert RunRegisters(UploadInvariants.Undisturbed(size, limit), size, limit) by {
        var s := UploadLifecycle.Run(UploadLifecycle.Init(), UploadInvariants.Undisturbed(size, limit)).value;
        assert 0 in s.files;
      }
    }
    forall events | RunRegisters(events, size, limit)
      ensures UploadSizes.Fits(size, limit)
    {
      var s := UploadLifecycle.Run(UploadLifecycle.Init(), events).value;
      var file :| file in s.files && s.files[file].key in s.objects && s.objects[s.files[file].key] == size;
      UploadSizes.RegisteredFilesFit(events, limit, file);
    }
  }

  /**
   * For every non-empty file, whatever the interleaving of the upload's workers: the object that a pool
   * leaves when it returns normally can be registered, by any run of start, complete, cleanup and
   * deletion at all, exactly when the file is within the size limit.
   */
  lemma UploadRegistersIffWithinLimit(t: Table, salt: Bytes, file: Bytes, seals: seq<Sealing>,
                                      job: UploadPool.Job, workers: nat, upload: seq<UploadPool.Event>, limit: nat)
    requires |salt| == FILE_SALT_LENGTH && Sized(t) && SealsFile(t, salt, file, seals) && |file| > 0
    requires Pipeline.UploadsStream(job, salt, seals) && workers > 0
    requires UploadPool.RunReturns(job, workers, upload)
    ensures var stored := Pipeline.StoredObject(job, workers, upload);
            stored.Some? && (CanRegister(|stored.value|, limit) <==> |file| <= limit)
  {
    Pipeline.UploadStoresStream(t, salt, file, seals, job, workers, upload);
    PlaintextSizeInverts(|file|);
    RegistersIffItFits(CiphertextSize(|file|), limit);
  }
}
