/** Taking down a share leaves nothing of it in storage. */
module UploadShares {
  import opened UploadInvariants
  import opened UploadLifecycle
  import opened UploadSizes

  /** Foreign keys: the share of every uploads and files row exists. */
  predicate SharesExist(s: State) {
    && (forall u :: u in s.uploads ==> s.uploads[u].share in s.shares)
    && (forall f :: f in s.files ==> s.files[f].share in s.shares)
  }

  lemma RowsLeaveKeeps(s: State, s': State)
    requires SharesExist(s) && RowsLeave(s, s')
    ensures SharesExist(s')
  {
  }

  lemma BeginStartShares(s: State, e: Event)
    requires e.BeginStart? && SharesExist(s) && Step(s, e).Some?
    ensures SharesExist(Step(s, e).value)
  {
  }

  lemma SessionInsertedShares(s: State, e: Event)
    requires e.SessionInserted? && SharesExist(s) && Step(s, e).Some?
    ensures SharesExist(Step(s, e).value)
  {
  }

  lemma StartShares(s: State, e: Event)
    requires StartEvent(e) && SharesExist(s) && Step(s, e).Some?
    ensures SharesExist(Step(s, e).value)
  {
    if e.BeginStart? {
      BeginStartShares(s, e);
    } else if e.SessionInserted? {
      SessionInsertedShares(s, e);
    } else {
      assert RowsLeave(s, Step(s, e).value);
    }
  }

  /** A commit inserts a row only into a share that is there. */
  lemma CommitShares(s: State, session: Session, row: Row, file: FileId)
    requires SharesExist(s)
    ensures SharesExist(Commit(s, session, row, file))
  {
    if !CanInsert(s, session, row) {
      assert RowsLeave(s, Commit(s, session, row, file));
    }
  }

  lemma CommittedShares(s: State, pid: Pid, file: FileId, reported: bool)
    requires SharesExist(s) && OnCommitted(s, pid, file, reported).Some?
    ensures SharesExist(OnCommitted(s, pid, file, reported).value)
  {
    var p := s.procs[pid];
    CommitShares(s, p.session, p.row, file);
    assert SameRows(Commit(s, p.session, p.row, file), OnCommitted(s, pid, file, reported).value);
  }

  lemma StaleShares(s: State, job: Cleanup)
    requires SharesExist(s) && job.target.StaleUpload?
    ensures SharesExist(DeleteInspected(s, job))
  {
    assert RowsLeave(s, DeleteInspected(s, job));
  }

  predicate InUse(s: State, share: ShareId) {
    (exists u :: u in s.uploads && s.uploads[u].share == share)
      || (exists f :: f in s.files && s.files[f].share == share)
  }

  /** Rows leave, and the share's row goes with the last of them. */
  predicate LeavesShare(s: State, t: State, share: ShareId) {
    && (forall u :: u in t.uploads ==> u in s.uploads && t.uploads[u] == s.uploads[u])
    && (forall f :: f in t.files ==> f in s.files && t.files[f] == s.files[f])
    && t.shares == if InUse(t, share) then s.shares else s.shares - {share}
  }

  lemma WholeShareIs(s: State, job: Cleanup)
    requires job.target.WholeShare?
    ensures LeavesShare(s, DeleteInspected(s, job), job.target.share)
  {
  }

  lemma LeavesShareKeeps(s: State, t: State, share: ShareId)
    requires SharesExist(s) && LeavesShare(s, t, share)
    ensures SharesExist(t)
  {
    forall u | u in t.uploads
      ensures t.uploads[u].share in t.shares
    {
      assert t.uploads[u].share in s.shares;
    }
    forall f | f in t.files
      ensures t.files[f].share in t.shares
    {
      assert t.files[f].share in s.shares;
    }
  }

  lemma DeleteInspectedShares(s: State, job: Cleanup)
    requires SharesExist(s)
    ensures SharesExist(DeleteInspected(s, job))
  {
    if job.target.StaleUpload? {
      StaleShares(s, job);
    } else {
      WholeShareIs(s, job);
      LeavesShareKeeps(s, DeleteInspected(s, job), job.target.share);
    }
  }

  lemma RowsDeletedShares(s: State, pid: Pid)
    requires SharesExist(s) && OnRowsDeleted(s, pid).Some?
    ensures SharesExist(OnRowsDeleted(s, pid).value)
  {
    DeleteInspectedShares(s, s.procs[pid].job);
    GoKeepsRows(DeleteInspected(s, s.procs[pid].job), pid, s.procs[pid]);
  }

  lemma StepKeepsShares(s: State, e: Event)
    requires SharesExist(s) && Step(s, e).Some?
    ensures SharesExist(Step(s, e).value)
  {
    if StartEvent(e) {
      StartShares(s, e);
    } else if e.R2Completed? {
      R2CompletedKeepsRows(s, e.pid, e.size, e.reported);
    } else if e.SizeChecked? {
      SizeCheckedKeepsRows(s, e.pid, e.limit);
    } else if e.Committed? {
      CommittedShares(s, e.pid, e.file, e.reported);
    } else if e.RowsDeleted? {
      RowsDeletedShares(s, e.pid);
    } else {
      QuietIsCalm(s, e);
      RowsLeaveKeeps(s, Step(s, e).value);
    }
  }

  lemma {:induction false} RunKeepsShares(s: State, events: seq<Event>)
    requires SharesExist(s) && Run(s, events).Some?
    ensures SharesExist(Run(s, events).value)
    decreases |events|
  {
    if |events| > 0 {
      StepKeepsShares(s, events[0]);
      RunKeepsShares(Step(s, events[0]).value, events[1..]);
    }
  }

  /** A row that names a session's key belongs to the session's share. */
  lemma HoldersShareTheShare(s: State, session: Session)
    requires DataGood(s) && SharesExist(s) && session in s.sessions
    requires HeldByFile(s.files, s.sessions[session].key) || HeldByUpload(s.uploads, s.sessions[session].key)
    ensures s.sessions[session].share in s.shares
  {
    var key := s.sessions[session].key;
    if HeldByFile(s.files, key) {
      var f :| f in s.files && s.files[f].key == key;
      assert KnownFile(s, f, s.files[f]);
      assert s.insertedBy[f] == session;
    } else {
      var u :| u in s.uploads && s.uploads[u].key == key;
      assert Known(s.sessions, u, s.uploads[u]);
      assert u == session;
    }
  }

  /**
   * In every reachable state of any interleaving: once a share's row is gone, whoever removed it and
   * whatever uploads into it were under way, no object of any upload ever begun for it is stored.
   */
  lemma RemovedSharesLeaveNothing(events: seq<Event>, session: Session)
    requires Run(Init(), events).Some? && session in Run(Init(), events).value.sessions
    ensures var s := Run(Init(), events).value;
            s.sessions[session].share !in s.shares ==> s.sessions[session].key !in s.objects
  {
    var s := Run(Init(), events).value;
    RunKeepsInv(Init(), events);
    RunKeepsShares(Init(), events);
    if s.sessions[session].key in s.objects {
      HoldersShareTheShare(s, session);
    }
  }
}
