/** Only objects whose real size was checked are ever registered, however completions interleave. */
module UploadSizes {
  import opened Packet
  import opened UploadLifecycle
  import opened UploadInvariants

  predicate Fits(size: nat, limit: nat) {
    PlaintextSize(size).Some? && PlaintextSize(size).value <= limit
  }

  predicate Holding(objects: map<Key, nat>, key: Key, size: nat) {
    key in objects && objects[key] == size
  }

  /** The size a request remembers is the stored object's, and a request that commits has checked it. */
  predicate RequestSized(objects: map<Key, nat>, p: Proc, limit: nat) {
    && (p.CheckingSize? ==> Holding(objects, p.row.key, p.size))
    && (p.Committing? ==> p.row.key in objects && Fits(objects[p.row.key], limit))
  }

  predicate FilesFit(objects: map<Key, nat>, files: map<FileId, Row>, limit: nat) {
    forall f :: f in files && files[f].key in objects ==> Fits(objects[files[f].key], limit)
  }

  predicate RequestsSized(objects: map<Key, nat>, procs: map<Pid, Proc>, limit: nat) {
    forall pid :: pid in procs ==> RequestSized(objects, procs[pid], limit)
  }

  predicate SizesGood(s: State, limit: nat) {
    FilesFit(s.objects, s.files, limit) && RequestsSized(s.objects, s.procs, limit)
  }

  /** Every request checks against a limit of at most `limit`. */
  predicate Limited(events: seq<Event>, limit: nat) {
    forall i :: 0 <= i < |events| && events[i].SizeChecked? ==> events[i].limit <= limit
  }

  /** Objects and files are only removed, and no request enters the size check or the commit. */
  predicate Calm(s: State, s': State) {
    && (forall k :: k in s'.objects ==> Holding(s.objects, k, s'.objects[k]))
    && (forall f :: f in s'.files ==> f in s.files && s'.files[f] == s.files[f])
    && (forall pid :: pid in s'.procs && (s'.procs[pid].CheckingSize? || s'.procs[pid].Committing?) ==>
          pid in s.procs && s'.procs[pid] == s.procs[pid])
  }

  /** Rows of the two tables only go, and shares stay. */
  predicate RowsLeave(s: State, s': State) {
    && s.shares.Keys <= s'.shares.Keys
    && (forall u :: u in s'.uploads ==> u in s.uploads && s'.uploads[u] == s.uploads[u])
    && (forall f :: f in s'.files ==> f in s.files && s'.files[f] == s.files[f])
  }

  predicate SameRows(s: State, s': State) {
    s'.uploads == s.uploads && s'.files == s.files && s'.shares == s.shares
  }

  lemma CalmKeeps(s: State, s': State, limit: nat)
    requires SizesGood(s, limit) && Inv(s') && Calm(s, s')
    ensures SizesGood(s', limit)
  {
    forall pid | pid in s'.procs
      ensures RequestSized(s'.objects, s'.procs[pid], limit)
    {
      assert ProcGood(s', pid, s'.procs[pid]);
      if s'.procs[pid].CheckingSize? || s'.procs[pid].Committing? {
        assert RequestSized(s.objects, s.procs[pid], limit);
      }
    }
  }

  lemma GoIsCalm(s: State, pid: Pid, p: Proc)
    requires !p.CheckingSize? && !p.Committing?
    ensures Calm(s, Go(s, pid, p)) && RowsLeave(s, Go(s, pid, p))
  {
  }

  lemma EndIsCalm(s: State, t: State, pid: Pid)
    requires t.procs == s.procs && t.objects == s.objects
    requires forall f :: f in t.files ==> f in s.files && t.files[f] == s.files[f]
    ensures Calm(s, End(t, pid))
    ensures t.uploads == s.uploads && t.shares == s.shares ==> RowsLeave(s, End(t, pid))
  {
  }

  // Every call but the three that touch sizes is calm.

  lemma StartIsCalm(s: State, e: Event)
    requires StartEvent(e) && Step(s, e).Some?
    ensures Calm(s, Step(s, e).value)
  {
  }

  lemma BeginCompleteIsCalm(s: State, pid: Pid, session: Session)
    requires OnBeginComplete(s, pid, session).Some?
    ensures Calm(s, OnBeginComplete(s, pid, session).value)
    ensures RowsLeave(s, OnBeginComplete(s, pid, session).value)
  {
  }

  lemma PartsReadIsCalm(s: State, pid: Pid)
    requires OnPartsRead(s, pid).Some?
    ensures Calm(s, OnPartsRead(s, pid).value)
    ensures RowsLeave(s, OnPartsRead(s, pid).value)
  {
    if s.procs[pid].session in s.parts {
      GoIsCalm(s, pid, Completing(s.procs[pid].session, s.procs[pid].row));
    } else {
      EndIsCalm(s, s, pid);
    }
  }

  lemma R2MissingIsCalm(s: State, pid: Pid)
    requires OnR2Missing(s, pid).Some?
    ensures Calm(s, OnR2Missing(s, pid).value)
    ensures RowsLeave(s, OnR2Missing(s, pid).value)
  {
  }

  lemma ExistingFoundIsCalm(s: State, pid: Pid, file: FileId)
    requires OnExistingFound(s, pid, file).Some?
    ensures Calm(s, OnExistingFound(s, pid, file).value)
    ensures RowsLeave(s, OnExistingFound(s, pid, file).value)
  {
    EndIsCalm(s, s, pid);
  }

  lemma OversizedDeletedIsCalm(s: State, pid: Pid)
    requires OnOversizedDeleted(s, pid).Some?
    ensures Calm(s, OnOversizedDeleted(s, pid).value)
    ensures RowsLeave(s, OnOversizedDeleted(s, pid).value)
  {
  }

  lemma OversizedForgottenIsCalm(s: State, pid: Pid)
    requires OnOversizedForgotten(s, pid).Some?
    ensures Calm(s, OnOversizedForgotten(s, pid).value)
    ensures RowsLeave(s, OnOversizedForgotten(s, pid).value)
  {
  }

  lemma BeginStaleIsCalm(s: State, pid: Pid, session: Session)
    requires OnBeginStale(s, pid, session).Some?
    ensures Calm(s, OnBeginStale(s, pid, session).value)
    ensures RowsLeave(s, OnBeginStale(s, pid, session).value)
  {
  }

  lemma BeginDeleteShareIsCalm(s: State, pid: Pid, share: ShareId, found: set<FileId>)
    requires OnBeginDeleteShare(s, pid, share, found).Some?
    ensures Calm(s, OnBeginDeleteShare(s, pid, share, found).value)
    ensures RowsLeave(s, OnBeginDeleteShare(s, pid, share, found).value)
  {
  }

  lemma UploadsReadIsCalm(s: State, pid: Pid, sessions: seq<Session>)
    requires OnUploadsRead(s, pid, sessions).Some?
    ensures Calm(s, OnUploadsRead(s, pid, sessions).value)
    ensures RowsLeave(s, OnUploadsRead(s, pid, sessions).value)
  {
  }

  lemma ReferencesCheckedIsCalm(s: State, pid: Pid)
    requires OnReferencesChecked(s, pid).Some?
    ensures Calm(s, OnReferencesChecked(s, pid).value)
    ensures RowsLeave(s, OnReferencesChecked(s, pid).value)
  {
    var job := s.procs[pid].job;
    EndIsCalm(s, s, pid);
    if |job.ups| > 0 {
      GoIsCalm(s, pid, Retiring(job, 0, AbortCall));
    } else {
      GoIsCalm(s, pid, DeletingObjects(job));
    }
  }

  lemma R2AbortedIsCalm(s: State, pid: Pid)
    requires OnR2Aborted(s, pid).Some?
    ensures Calm(s, OnR2Aborted(s, pid).value)
    ensures RowsLeave(s, OnR2Aborted(s, pid).value)
  {
  }

  lemma HeadedIsCalm(s: State, pid: Pid)
    requires OnHeaded(s, pid).Some?
    ensures Calm(s, OnHeaded(s, pid).value)
    ensures RowsLeave(s, OnHeaded(s, pid).value)
  {
  }

  lemma LookedUpIsCalm(s: State, pid: Pid)
    requires OnLookedUp(s, pid).Some?
    ensures Calm(s, OnLookedUp(s, pid).value)
    ensures RowsLeave(s, OnLookedUp(s, pid).value)
  {
    var p := s.procs[pid];
    if HeldByFile(s.files, p.job.ups[p.i].1.key) {
      GoIsCalm(s, pid, NextUpload(p.job, p.i));
    } else {
      EndIsCalm(s, s, pid);
    }
  }

  lemma ObjectsDeletedIsCalm(s: State, pid: Pid)
    requires OnObjectsDeleted(s, pid).Some?
    ensures Calm(s, OnObjectsDeleted(s, pid).value)
    ensures RowsLeave(s, OnObjectsDeleted(s, pid).value)
  {
  }

  lemma ObjectsPartlyDeletedIsCalm(s: State, pid: Pid, gone: set<Key>)
    requires OnObjectsPartlyDeleted(s, pid, gone).Some?
    ensures Calm(s, OnObjectsPartlyDeleted(s, pid, gone).value)
    ensures RowsLeave(s, OnObjectsPartlyDeleted(s, pid, gone).value)
  {
  }

  lemma RowsDeletedIsCalm(s: State, pid: Pid)
    requires Inv(s) && OnRowsDeleted(s, pid).Some?
    ensures Calm(s, OnRowsDeleted(s, pid).value)
  {
    assert ProcGood(s, pid, s.procs[pid]);
    DeletedRowsAreSafe(s, s.procs[pid].job);
    EndIsCalm(s, DeleteInspected(s, s.procs[pid].job), pid);
  }

  lemma BeginOneTimeIsCalm(s: State, pid: Pid, file: FileId)
    requires OnBeginOneTime(s, pid, file).Some?
    ensures Calm(s, OnBeginOneTime(s, pid, file).value)
    ensures RowsLeave(s, OnBeginOneTime(s, pid, file).value)
  {
  }

  lemma OneTimeObjectDeletedIsCalm(s: State, pid: Pid)
    requires OnOneTimeObjectDeleted(s, pid).Some?
    ensures Calm(s, OnOneTimeObjectDeleted(s, pid).value)
    ensures RowsLeave(s, OnOneTimeObjectDeleted(s, pid).value)
  {
  }

  lemma OneTimeRowDeletedIsCalm(s: State, pid: Pid)
    requires OnOneTimeRowDeleted(s, pid).Some?
    ensures Calm(s, OnOneTimeRowDeleted(s, pid).value)
    ensures RowsLeave(s, OnOneTimeRowDeleted(s, pid).value)
  {
  }

  lemma DiedIsCalm(s: State, pid: Pid)
    requires OnDied(s, pid).Some?
    ensures Calm(s, OnDied(s, pid).value)
    ensures RowsLeave(s, OnDied(s, pid).value)
  {
  }

  lemma PartRecordedIsCalm(s: State, session: Session)
    requires OnPartRecorded(s, session).Some?
    ensures Calm(s, OnPartRecorded(s, session).value)
    ensures RowsLeave(s, OnPartRecorded(s, session).value)
  {
  }

  lemma ShareChangedIsCalm(s: State, share: ShareId, accessible: bool)
    requires OnShareChanged(s, share, accessible).Some?
    ensures Calm(s, OnShareChanged(s, share, accessible).value)
    ensures RowsLeave(s, OnShareChanged(s, share, accessible).value)
  {
  }

  /** A new object's key has never been registered. */
  lemma CompletedKeyIsNew(s: State, key: Key)
    requires DataGood(s) && key in s.multiparts && s.multiparts[key].Open?
    ensures key !in s.objects && !HeldByFile(s.files, key)
  {
    forall f | f in s.files
      ensures s.files[f].key != key
    {
      assert KnownFile(s, f, s.files[f]);
    }
  }

  lemma R2CompletedKeepsSizes(s: State, pid: Pid, size: nat, reported: bool, limit: nat)
    requires Inv(s) && SizesGood(s, limit) && OnR2Completed(s, pid, size, reported).Some?
    ensures SizesGood(OnR2Completed(s, pid, size, reported).value, limit)
  {
    var s', key := OnR2Completed(s, pid, size, reported).value, s.procs[pid].row.key;
    CompletedKeyIsNew(s, key);
    forall p | p in s'.procs
      ensures RequestSized(s'.objects, s'.procs[p], limit)
    {
      if p != pid {
        assert RequestSized(s.objects, s.procs[p], limit);
      }
    }
  }

  /** Where only one request moves on and objects stay, the others stay sized. */
  lemma MoverSized(s: State, s': State, pid: Pid, limit: nat)
    requires RequestsSized(s.objects, s.procs, limit) && s'.objects == s.objects
    requires forall q :: q in s'.procs && q != pid ==> q in s.procs && s'.procs[q] == s.procs[q]
    requires pid in s'.procs ==> RequestSized(s'.objects, s'.procs[pid], limit)
    ensures RequestsSized(s'.objects, s'.procs, limit)
  {
    forall q | q in s'.procs
      ensures RequestSized(s'.objects, s'.procs[q], limit)
    {
      assert q != pid ==> RequestSized(s.objects, s.procs[q], limit);
    }
  }

  lemma GoSized(s: State, pid: Pid, p: Proc, limit: nat)
    requires SizesGood(s, limit) && RequestSized(s.objects, p, limit)
    ensures SizesGood(Go(s, pid, p), limit)
  {
    MoverSized(s, Go(s, pid, p), pid, limit);
  }

  lemma EndSized(s: State, pid: Pid, limit: nat)
    requires SizesGood(s, limit)
    ensures SizesGood(End(s, pid), limit)
  {
    MoverSized(s, End(s, pid), pid, limit);
  }

  lemma SizeCheckedKeepsSizes(s: State, pid: Pid, checked: nat, limit: nat)
    requires SizesGood(s, limit) && checked <= limit && OnSizeChecked(s, pid, checked).Some?
    ensures SizesGood(OnSizeChecked(s, pid, checked).value, limit)
  {
    var p := s.procs[pid];
    assert RequestSized(s.objects, p, limit);
    var plain := PlaintextSize(p.size);
    if plain.None? {
      EndSized(s, pid, limit);
    } else if plain.value > checked {
      GoSized(s, pid, DeletingOversized(p.session, p.row), limit);
    } else {
      GoSized(s, pid, Committing(p.session, p.row), limit);
    }
  }

  /** A commit registers its own row, or nothing. */
  predicate RegistersRow(s: State, t: State, row: Row, file: FileId) {
    t.objects == s.objects && t.procs == s.procs && (t.files == s.files || t.files == s.files[file := row])
  }

  lemma CommitAddsRow(s: State, session: Session, row: Row, file: FileId)
    ensures RegistersRow(s, Commit(s, session, row, file), row, file)
  {
    var t := Commit(s, session, row, file);
    if CanInsert(s, session, row) {
      var forgotten := ForgetSession(s, session);
      assert t == forgotten.(files := s.files[file := row], insertedBy := s.insertedBy[file := session]);
    } else {
      assert t == ForgetSession(s, session) || t == s;
    }
  }

  lemma OneMoreFits(objects: map<Key, nat>, files: map<FileId, Row>, file: FileId, row: Row, limit: nat)
    requires FilesFit(objects, files, limit) && (row.key in objects ==> Fits(objects[row.key], limit))
    ensures FilesFit(objects, files[file := row], limit)
  {
  }

  lemma CommittedKeepsSizes(s: State, pid: Pid, file: FileId, reported: bool, limit: nat)
    requires SizesGood(s, limit) && OnCommitted(s, pid, file, reported).Some?
    ensures SizesGood(OnCommitted(s, pid, file, reported).value, limit)
  {
    var s', p := OnCommitted(s, pid, file, reported).value, s.procs[pid];
    assert RequestSized(s.objects, p, limit);
    CommitAddsRow(s, p.session, p.row, file);
    OneMoreFits(s.objects, s.files, file, p.row, limit);
    MoverSized(s, s', pid, limit);
  }

  lemma StepKeepsSizes(s: State, e: Event, limit: nat)
    requires Inv(s) && SizesGood(s, limit) && Step(s, e).Some? && (e.SizeChecked? ==> e.limit <= limit)
    ensures SizesGood(Step(s, e).value, limit)
  {
    StepKeepsInv(s, e);
    if e.R2Completed? {
      R2CompletedKeepsSizes(s, e.pid, e.size, e.reported, limit);
    } else if e.SizeChecked? {
      SizeCheckedKeepsSizes(s, e.pid, e.limit, limit);
    } else if e.Committed? {
      CommittedKeepsSizes(s, e.pid, e.file, e.reported, limit);
    } else {
      OtherStepIsCalm(s, e);
      CalmKeeps(s, Step(s, e).value, limit);
    }
  }

  /** The calls that neither start an upload, nor delete rows, nor touch sizes. */
  predicate QuietEvent(e: Event) {
    ReadingEvent(e) || RetiringEvent(e) || OneTimeEvent(e) || WorldEvent(e)
  }

  predicate ReadingEvent(e: Event) {
    e.BeginComplete? || e.PartsRead? || e.R2Missing? || e.ExistingFound? || e.OversizedDeleted? || e.OversizedForgotten?
  }

  predicate RetiringEvent(e: Event) {
    CleanupEvent(e) && !e.RowsDeleted?
  }

  lemma ReadingIsCalm(s: State, e: Event)
    requires ReadingEvent(e) && Step(s, e).Some?
    ensures Calm(s, Step(s, e).value) && RowsLeave(s, Step(s, e).value)
  {
    if e.BeginComplete? {
      BeginCompleteIsCalm(s, e.pid, e.session);
    } else if e.PartsRead? {
      PartsReadIsCalm(s, e.pid);
    } else if e.R2Missing? {
      R2MissingIsCalm(s, e.pid);
    } else if e.ExistingFound? {
      ExistingFoundIsCalm(s, e.pid, e.file);
    } else if e.OversizedDeleted? {
      OversizedDeletedIsCalm(s, e.pid);
    } else {
      OversizedForgottenIsCalm(s, e.pid);
    }
  }

  lemma RetiringIsCalm(s: State, e: Event)
    requires RetiringEvent(e) && Step(s, e).Some?
    ensures Calm(s, Step(s, e).value) && RowsLeave(s, Step(s, e).value)
  {
    if e.R2Aborted? {
      R2AbortedIsCalm(s, e.pid);
    } else if e.Headed? {
      HeadedIsCalm(s, e.pid);
    } else if e.LookedUp? {
      LookedUpIsCalm(s, e.pid);
    } else if e.ObjectsDeleted? {
      ObjectsDeletedIsCalm(s, e.pid);
    } else if e.ObjectsPartlyDeleted? {
      ObjectsPartlyDeletedIsCalm(s, e.pid, e.gone);
    } else {
      InspectingIsCalm(s, e);
    }
  }

  lemma InspectingIsCalm(s: State, e: Event)
    requires Step(s, e).Some?
    requires e.BeginStale? || e.BeginDeleteShare? || e.UploadsRead? || e.ReferencesChecked?
    ensures Calm(s, Step(s, e).value) && RowsLeave(s, Step(s, e).value)
  {
    if e.BeginStale? {
      BeginStaleIsCalm(s, e.pid, e.session);
    } else if e.BeginDeleteShare? {
      BeginDeleteShareIsCalm(s, e.pid, e.share, e.found);
    } else if e.UploadsRead? {
      UploadsReadIsCalm(s, e.pid, e.sessions);
    } else {
      ReferencesCheckedIsCalm(s, e.pid);
    }
  }

  lemma OneTimeIsCalm(s: State, e: Event)
    requires OneTimeEvent(e) && Step(s, e).Some?
    ensures Calm(s, Step(s, e).value) && RowsLeave(s, Step(s, e).value)
  {
    if e.BeginOneTime? {
      BeginOneTimeIsCalm(s, e.pid, e.file);
    } else if e.OneTimeObjectDeleted? {
      OneTimeObjectDeletedIsCalm(s, e.pid);
    } else {
      OneTimeRowDeletedIsCalm(s, e.pid);
    }
  }

  lemma WorldIsCalm(s: State, e: Event)
    requires WorldEvent(e) && Step(s, e).Some?
    ensures Calm(s, Step(s, e).value) && RowsLeave(s, Step(s, e).value)
  {
    if e.Died? {
      DiedIsCalm(s, e.pid);
    } else if e.PartRecorded? {
      PartRecordedIsCalm(s, e.session);
    } else {
      ShareChangedIsCalm(s, e.share, e.accessible);
    }
  }

  lemma QuietIsCalm(s: State, e: Event)
    requires QuietEvent(e) && Step(s, e).Some?
    ensures Calm(s, Step(s, e).value) && RowsLeave(s, Step(s, e).value)
  {
    if ReadingEvent(e) {
      ReadingIsCalm(s, e);
    } else if RetiringEvent(e) {
      RetiringIsCalm(s, e);
    } else if OneTimeEvent(e) {
      OneTimeIsCalm(s, e);
    } else {
      WorldIsCalm(s, e);
    }
  }

  lemma OtherStepIsCalm(s: State, e: Event)
    requires Inv(s) && !e.R2Completed? && !e.SizeChecked? && !e.Committed? && Step(s, e).Some?
    ensures Calm(s, Step(s, e).value)
  {
    if StartEvent(e) {
      StartIsCalm(s, e);
    } else if e.RowsDeleted? {
      RowsDeletedIsCalm(s, e.pid);
    } else {
      QuietIsCalm(s, e);
    }
  }

  lemma {:induction false} RunKeepsSizes(s: State, events: seq<Event>, limit: nat)
    requires Inv(s) && SizesGood(s, limit) && Limited(events, limit) && Run(s, events).Some?
    ensures SizesGood(Run(s, events).value, limit)
    decreases |events|
  {
    if |events| > 0 {
      StepKeepsSizes(s, events[0], limit);
      StepKeepsInv(s, events[0]);
      assert forall i :: 0 <= i < |events[1..]| ==> events[1..][i] == events[i + 1];
      RunKeepsSizes(Step(s, events[0]).value, events[1..], limit);
    }
  }

  /**
   * In every reachable state of any interleaving, a registered file's object has a plaintext size
   * within the limit: no completion, repeated, concurrent or interrupted, gets past the size check.
   */
  lemma RegisteredFilesFit(events: seq<Event>, limit: nat, file: FileId)
    requires Run(Init(), events).Some? && Limited(events, limit)
    ensures var s := Run(Init(), events).value;
            file in s.files && s.files[file].key in s.objects ==> Fits(s.objects[s.files[file].key], limit)
  {
    RunKeepsSizes(Init(), events, limit);
  }

  /** How a file enters the database: by the commit of the request that owns its object and checked its size. */
  ghost predicate Registers(s: State, e: Event, t: State, file: FileId, limit: nat) {
    && e.Committed? && e.file == file
    && e.pid in s.procs && s.procs[e.pid].Committing?
    && var Committing(session, row) := s.procs[e.pid];
    && file in t.files && t.files[file] == row
    && row.share in s.shares && s.shares[row.share]
    && session in s.uploads && session !in t.uploads
    && row.key in s.objects && Holding(t.objects, row.key, s.objects[row.key]) && Fits(s.objects[row.key], limit)
    && !HeldByFile(s.files, row.key)
  }

  lemma CommitRegisters(s: State, pid: Pid, file: FileId, reported: bool, limit: nat)
    requires SizesGood(s, limit) && OnCommitted(s, pid, file, reported).Some?
    requires file !in s.files && file in OnCommitted(s, pid, file, reported).value.files
    ensures Registers(s, Committed(pid, file, reported), OnCommitted(s, pid, file, reported).value, file, limit)
  {
    var p := s.procs[pid];
    assert RequestSized(s.objects, p, limit);
    assert CanInsert(s, p.session, p.row);
  }

  /**
   * In every reachable state, the only step that adds a files row is such a commit: into a share that
   * is accessible at that moment, in exchange for the upload session, for a stored object of checked size.
   */
  lemma OnlyCommitsRegister(events: seq<Event>, e: Event, file: FileId, limit: nat)
    requires Limited(events, limit) && Run(Init(), events).Some? && Step(Run(Init(), events).value, e).Some?
    requires file !in Run(Init(), events).value.files && file in Step(Run(Init(), events).value, e).value.files
    ensures Registers(Run(Init(), events).value, e, Step(Run(Init(), events).value, e).value, file, limit)
  {
    RunKeepsSizes(Init(), events, limit);
    RunKeepsInv(Init(), events);
    AddedFileIsRegistered(Run(Init(), events).value, e, file, limit);
  }

  lemma AddedFileIsRegistered(s: State, e: Event, file: FileId, limit: nat)
    requires Inv(s) && SizesGood(s, limit) && Step(s, e).Some?
    requires file !in s.files && file in Step(s, e).value.files
    ensures Registers(s, e, Step(s, e).value, file, limit)
  {
    if e.Committed? {
      OtherFilesStay(s, e.pid, e.file, e.reported, file);
      CommitRegisters(s, e.pid, e.file, e.reported, limit);
    } else {
      FilesOnlyGo(s, e, file);
    }
  }

  lemma OtherFilesStay(s: State, pid: Pid, file: FileId, reported: bool, other: FileId)
    requires OnCommitted(s, pid, file, reported).Some?
    requires other !in s.files && other in OnCommitted(s, pid, file, reported).value.files
    ensures other == file
  {
    CommitAddsRow(s, s.procs[pid].session, s.procs[pid].row, file);
  }

  lemma FilesOnlyGo(s: State, e: Event, file: FileId)
    requires Inv(s) && !e.Committed? && Step(s, e).Some? && file in Step(s, e).value.files
    ensures file in s.files
  {
    if e.R2Completed? {
      R2CompletedKeepsRows(s, e.pid, e.size, e.reported);
    } else if e.SizeChecked? {
      SizeCheckedKeepsRows(s, e.pid, e.limit);
    } else {
      OtherStepIsCalm(s, e);
    }
  }

  lemma R2CompletedKeepsRows(s: State, pid: Pid, size: nat, reported: bool)
    requires OnR2Completed(s, pid, size, reported).Some?
    ensures SameRows(s, OnR2Completed(s, pid, size, reported).value)
  {
  }

  lemma GoKeepsRows(s: State, pid: Pid, p: Proc)
    ensures SameRows(s, Go(s, pid, p)) && SameRows(s, End(s, pid))
  {
  }

  lemma SizeCheckedKeepsRows(s: State, pid: Pid, limit: nat)
    requires OnSizeChecked(s, pid, limit).Some?
    ensures SameRows(s, OnSizeChecked(s, pid, limit).value)
  {
    var p := s.procs[pid];
    GoKeepsRows(s, pid, DeletingOversized(p.session, p.row));
    GoKeepsRows(s, pid, Committing(p.session, p.row));
  }
}
