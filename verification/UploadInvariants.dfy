/** What every interleaving of uploading and cleaning up keeps. */
module UploadInvariants {
  import opened Bytes
  import opened Packet
  import opened UploadLifecycle

  ghost predicate Closed(m: map<Key, Multipart>, key: Key) {
    key in m && !m[key].Open?
  }

  /** The object is gone for good: its one multipart upload can no longer complete. */
  ghost predicate Gone(s: State, key: Key) {
    Closed(s.multiparts, key) && key !in s.objects
  }

  /** No uploads row is needed to keep track of this object any more. */
  ghost predicate Safe(s: State, key: Key) {
    Closed(s.multiparts, key) && (key in s.objects ==> HeldByFile(s.files, key))
  }

  ghost predicate Known(sessions: map<Session, Row>, session: Session, row: Row) {
    session in sessions && sessions[session] == row
  }

  ghost predicate KnownFile(s: State, file: FileId, row: Row) {
    file in s.insertedBy && Known(s.sessions, s.insertedBy[file], row)
  }

  ghost predicate TrackedOrClosed(s: State, session: Session, row: Row) {
    session in s.uploads || Closed(s.multiparts, row.key)
  }

  ghost predicate NeverInserted(insertedBy: map<FileId, Session>, session: Session) {
    forall f :: f in insertedBy ==> insertedBy[f] != session
  }

  /** This request, and no other, completed the object; it is there, and nothing is registered for it yet. */
  ghost predicate Owns(s: State, pid: Pid, session: Session, row: Row) {
    Closed(s.multiparts, row.key) && row.key in s.objects && OwnedBy(s.completer, pid, row.key)
      && NeverInserted(s.insertedBy, session)
  }

  ghost predicate OwnedBy(completer: map<Key, Pid>, pid: Pid, key: Key) {
    key in completer && completer[key] == pid
  }

  /** Some files row has been inserted for this object at some time. */
  ghost predicate Registered(s: State, key: Key) {
    exists f :: f in s.insertedBy && s.insertedBy[f] in s.sessions && s.sessions[s.insertedBy[f]].key == key
  }

  ghost predicate JobKnown(s: State, job: Cleanup) {
    && (forall j :: 0 <= j < |job.ups| ==>
          Known(s.sessions, job.ups[j].0, job.ups[j].1) && job.ups[j].1.key in s.multiparts)
    && (job.target.WholeShare? ==> forall f :: f in job.target.files ==> KnownFile(s, f, job.target.files[f]))
  }

  ghost predicate RetiredUpTo(s: State, job: Cleanup, n: nat) {
    n <= |job.ups| && forall j :: 0 <= j < n ==> Safe(s, job.ups[j].1.key)
  }

  ghost predicate ProcGood(s: State, pid: Pid, p: Proc) {
    match p
    case ReadingParts(session, row) => Known(s.sessions, session, row) && TrackedOrClosed(s, session, row)
    case Completing(session, row) => Known(s.sessions, session, row) && TrackedOrClosed(s, session, row)
    case FindingExisting(session, row) => Known(s.sessions, session, row)
    case CheckingSize(session, row, _) => Known(s.sessions, session, row) && Owns(s, pid, session, row)
    case DeletingOversized(session, row) => Known(s.sessions, session, row) && Owns(s, pid, session, row)
    case ForgettingOversized(session, row) => Known(s.sessions, session, row) && Gone(s, row.key)
    case Committing(session, row) => Known(s.sessions, session, row) && Owns(s, pid, session, row)
    case ReadingUploads(_, found) => forall f :: f in found ==> KnownFile(s, f, found[f])
    case CheckingReferences(job) => JobKnown(s, job)
    case Retiring(job, i, call) =>
      JobKnown(s, job) && RetiredUpTo(s, job, i) && i < |job.ups|
        && (!call.AbortCall? ==> Closed(s.multiparts, job.ups[i].1.key))
    case DeletingObjects(job) => JobKnown(s, job) && RetiredUpTo(s, job, |job.ups|)
    case DeletingRows(job) =>
      && JobKnown(s, job) && RetiredUpTo(s, job, |job.ups|)
      && (job.target.WholeShare? ==> forall f :: f in job.target.files ==> Gone(s, job.target.files[f].key))
    case OneTimeObject(file, row) => KnownFile(s, file, row)
    case OneTimeRow(file, row) => KnownFile(s, file, row) && Gone(s, row.key)
  }

  // ---- The invariant of the stored data ----

  ghost predicate SessionsDistinct(s: State) {
    forall u, v :: u in s.sessions && v in s.sessions && s.sessions[u].key == s.sessions[v].key ==> u == v
  }

  ghost predicate UploadsGood(s: State) {
    forall u :: u in s.uploads ==>
      Known(s.sessions, u, s.uploads[u]) && s.uploads[u].key in s.multiparts && NeverInserted(s.insertedBy, u)
  }

  ghost predicate StartingGood(s: State) {
    && (forall u :: u in s.starting ==> u in s.sessions)
    && (forall u :: u in s.starting && s.starting[u].Creating? ==> s.sessions[u].key !in s.multiparts)
    && (forall u :: u in s.starting && s.starting[u].Inserting? ==> s.sessions[u].key in s.multiparts)
    && (forall u :: u in s.starting && !s.starting[u].Compensating? ==>
          u !in s.uploads && NeverInserted(s.insertedBy, u))
  }

  /** The tracking property: every object comes from a completed upload and some row names it. */
  ghost predicate ObjectsTracked(s: State) {
    forall k :: k in s.objects ==>
      k in s.multiparts && s.multiparts[k].Completed? && (HeldByFile(s.files, k) || HeldByUpload(s.uploads, k))
  }

  ghost predicate FilesGood(s: State) {
    forall f :: f in s.files ==>
      KnownFile(s, f, s.files[f]) && (s.files[f].key in s.objects || s.files[f].key in s.retired)
  }

  /** Each session inserts at most one files row ever. */
  ghost predicate InsertedOnce(s: State) {
    && (forall f :: f in s.insertedBy ==>
          s.insertedBy[f] in s.sessions && Closed(s.multiparts, s.sessions[s.insertedBy[f]].key))
    && (forall f, g :: f in s.insertedBy && g in s.insertedBy && s.insertedBy[f] == s.insertedBy[g] ==> f == g)
  }

  ghost predicate RepliesGood(s: State) {
    forall r :: r in s.replies ==> r.1 in s.insertedBy && s.insertedBy[r.1] == r.0
  }

  ghost predicate DataGood(s: State) {
    && SessionsDistinct(s) && UploadsGood(s) && StartingGood(s) && ObjectsTracked(s)
    && FilesGood(s) && InsertedOnce(s) && RepliesGood(s)
  }

  ghost predicate Inv(s: State) {
    DataGood(s) && forall pid :: pid in s.procs ==> ProcGood(s, pid, s.procs[pid])
  }

  // ---- How the data may change under a waiting request ----

  ghost predicate Evolves(s: State, s': State, mover: Pid) {
    && (forall u :: u in s.sessions ==> u in s'.sessions && s'.sessions[u] == s.sessions[u])
    && (forall f :: f in s.insertedBy ==> f in s'.insertedBy && s'.insertedBy[f] == s.insertedBy[f])
    && s.multiparts.Keys <= s'.multiparts.Keys
    && (forall k :: Closed(s.multiparts, k) ==> Closed(s'.multiparts, k))
    && (forall k :: Gone(s, k) ==> Gone(s', k))
    && (forall k :: Safe(s, k) ==> Safe(s', k))
    && (forall u :: u in s.uploads && Known(s.sessions, u, s.uploads[u]) ==>
          u in s'.uploads || Closed(s'.multiparts, s.uploads[u].key))
    && (forall k :: Closed(s.multiparts, k) && k in s.completer ==>
          k in s'.completer && s'.completer[k] == s.completer[k])
    && (forall f :: f in s'.insertedBy && f !in s.insertedBy ==>
          s'.insertedBy[f] in s.sessions && OwnedBy(s.completer, mover, s.sessions[s'.insertedBy[f]].key))
    && (forall k :: k in s.objects && k !in s'.objects ==> OwnedBy(s.completer, mover, k) || Registered(s, k))
  }

  lemma OwnsStable(s: State, s': State, mover: Pid, pid: Pid, session: Session, row: Row)
    requires Evolves(s, s', mover) && SessionsDistinct(s) && pid != mover
    requires Known(s.sessions, session, row) && Owns(s, pid, session, row)
    ensures Owns(s', pid, session, row)
  {
    assert !Registered(s, row.key);
    forall f | f in s'.insertedBy
      ensures s'.insertedBy[f] != session
    {
      assert f !in s.insertedBy ==> OwnedBy(s.completer, mover, s.sessions[s'.insertedBy[f]].key);
    }
  }

  lemma JobStable(s: State, s': State, mover: Pid, job: Cleanup, n: nat)
    requires Evolves(s, s', mover) && JobKnown(s, job) && RetiredUpTo(s, job, n)
    ensures JobKnown(s', job) && RetiredUpTo(s', job, n)
  {
  }

  /** What a waiting request relies on survives any call of another request. */
  lemma ProcStable(s: State, s': State, mover: Pid, pid: Pid, p: Proc)
    requires Evolves(s, s', mover) && UploadsGood(s) && SessionsDistinct(s) && ProcGood(s, pid, p) && pid != mover
    ensures ProcGood(s', pid, p)
  {
    match p
    case CheckingSize(session, row, _) => OwnsStable(s, s', mover, pid, session, row);
    case DeletingOversized(session, row) => OwnsStable(s, s', mover, pid, session, row);
    case Committing(session, row) => OwnsStable(s, s', mover, pid, session, row);
    case CheckingReferences(job) => JobStable(s, s', mover, job, 0);
    case Retiring(job, i, _) => JobStable(s, s', mover, job, i);
    case DeletingObjects(job) => JobStable(s, s', mover, job, |job.ups|);
    case DeletingRows(job) => JobStable(s, s', mover, job, |job.ups|);
    case _ =>
  }

  // ---- The kinds of change to the data ----

  /** Only requests, replies to requests, part rows and share states differ. */
  ghost predicate SameData(s: State, s': State) {
    s' == s.(procs := s'.procs, replies := s'.replies, parts := s'.parts, shares := s'.shares)
  }

  lemma SameDataKeeps(s: State, s': State, mover: Pid)
    requires DataGood(s) && SameData(s, s') && RepliesGood(s')
    ensures DataGood(s') && Evolves(s, s', mover)
  {
  }

  /** Aborting, and the bookkeeping of a start request that is over. */
  ghost predicate Aborts(s: State, s': State, key: Key) {
    && s' == s.(multiparts := Abort(s.multiparts, key), procs := s'.procs, starting := s'.starting)
    && (forall u :: u in s'.starting ==> u in s.starting && s'.starting[u] == s.starting[u])
  }

  /** Files, registrations and replies read little of the state. */
  lemma FilesFrame(s: State, s': State)
    requires FilesGood(s) && InsertedOnce(s) && RepliesGood(s)
    requires s'.sessions == s.sessions && s'.files == s.files && s'.insertedBy == s.insertedBy
             && s'.replies == s.replies
    requires s.objects.Keys <= s'.objects.Keys && s'.retired == s.retired
    requires forall k :: Closed(s.multiparts, k) ==> Closed(s'.multiparts, k)
    ensures FilesGood(s') && InsertedOnce(s') && RepliesGood(s')
  {
    forall f | f in s.files
      ensures KnownFile(s', f, s.files[f])
    {
      assert KnownFile(s, f, s.files[f]);
    }
  }

  lemma AbortKeepsSessions(s: State, s': State, key: Key)
    requires SessionsDistinct(s) && UploadsGood(s) && StartingGood(s) && Aborts(s, s', key)
    ensures SessionsDistinct(s') && UploadsGood(s') && StartingGood(s')
  {
    assert s'.multiparts.Keys == s.multiparts.Keys;
  }

  lemma AbortKeepsData(s: State, s': State, key: Key)
    requires DataGood(s) && Aborts(s, s', key)
    ensures DataGood(s')
  {
    AbortKeepsSessions(s, s', key);
    FilesFrame(s, s');
  }

  lemma AbortKeeps(s: State, s': State, key: Key, mover: Pid)
    requires DataGood(s) && Aborts(s, s', key)
    ensures DataGood(s') && Evolves(s, s', mover)
    ensures key in s.multiparts ==> Closed(s'.multiparts, key)
  {
    AbortKeepsData(s, s', key);
  }

  lemma ObjectsDeletedKeeps(s: State, s': State, keys: set<Key>, mover: Pid)
    requires DataGood(s)
    requires s' == s.(objects := s.objects - keys, procs := s'.procs, retired := s'.retired)
    requires s.retired <= s'.retired
    requires forall f :: f in s.files && s.files[f].key in keys ==> s.files[f].key in s'.retired
    requires forall k :: k in keys ==> OwnedBy(s.completer, mover, k) || Registered(s, k)
    ensures DataGood(s') && Evolves(s, s', mover)
    ensures forall k :: k in keys && Closed(s.multiparts, k) ==> Gone(s', k)
  {
  }

  /** Nothing but rows is removed. */
  ghost predicate RowsGo(s: State, s': State) {
    && s' == s.(uploads := s'.uploads, files := s'.files, parts := s'.parts, shares := s'.shares, procs := s'.procs)
    && (forall u :: u in s'.uploads ==> u in s.uploads && s'.uploads[u] == s.uploads[u])
    && (forall f :: f in s'.files ==> f in s.files && s'.files[f] == s.files[f])
  }

  /** Files rows may go once their objects are gone, uploads rows once theirs are safe. */
  lemma RowsDeletedData(s: State, s': State)
    requires DataGood(s) && RowsGo(s, s')
    requires forall u :: u in s.uploads && u !in s'.uploads ==> Safe(s, s.uploads[u].key)
    requires forall f :: f in s.files && f !in s'.files ==> Gone(s, s.files[f].key)
    ensures DataGood(s')
    ensures forall k :: k in s.objects && HeldByFile(s.files, k) ==> HeldByFile(s'.files, k)
  {
    forall k | k in s.objects && HeldByFile(s.files, k)
      ensures HeldByFile(s'.files, k)
    {
      var f :| f in s.files && s.files[f].key == k;
      assert f in s'.files;
    }
    forall k | k in s'.objects
      ensures HeldByFile(s'.files, k) || HeldByUpload(s'.uploads, k)
    {
      if !HeldByFile(s.files, k) {
        var u :| u in s.uploads && s.uploads[u].key == k;
        assert u in s'.uploads;
      }
    }
    assert forall f :: f in s'.files ==> KnownFile(s, f, s.files[f]);
  }

  lemma RowsDeletedKeeps(s: State, s': State, mover: Pid)
    requires DataGood(s) && RowsGo(s, s')
    requires forall u :: u in s.uploads && u !in s'.uploads ==> Safe(s, s.uploads[u].key)
    requires forall f :: f in s.files && f !in s'.files ==> Gone(s, s.files[f].key)
    ensures DataGood(s') && Evolves(s, s', mover)
  {
    RowsDeletedData(s, s');
  }

  ghost predicate Completes(s: State, s': State, pid: Pid, key: Key, size: nat) {
    && key in s.multiparts && s.multiparts[key].Open?
    && s' == s.(multiparts := s.multiparts[key := Completed], objects := s.objects[key := size],
                completer := s.completer[key := pid], procs := s'.procs)
  }

  lemma CompletedKeepsTracked(s: State, s': State, pid: Pid, key: Key, size: nat)
    requires ObjectsTracked(s) && Completes(s, s', pid, key, size) && HeldByUpload(s.uploads, key)
    ensures ObjectsTracked(s')
  {
  }

  lemma CompletedKeepsSessions(s: State, s': State, pid: Pid, key: Key, size: nat)
    requires SessionsDistinct(s) && UploadsGood(s) && StartingGood(s) && Completes(s, s', pid, key, size)
    ensures SessionsDistinct(s') && UploadsGood(s') && StartingGood(s')
  {
    assert s'.multiparts.Keys == s.multiparts.Keys;
  }

  lemma CompletedKeepsData(s: State, s': State, pid: Pid, key: Key, size: nat)
    requires DataGood(s) && Completes(s, s', pid, key, size) && HeldByUpload(s.uploads, key)
    ensures DataGood(s')
  {
    CompletedKeepsTracked(s, s', pid, key, size);
    CompletedKeepsSessions(s, s', pid, key, size);
    FilesFrame(s, s');
  }

  lemma CompletedEvolves(s: State, s': State, pid: Pid, key: Key, size: nat)
    requires Completes(s, s', pid, key, size)
    ensures Evolves(s, s', pid)
  {
  }

  lemma CompletedKeeps(s: State, s': State, pid: Pid, session: Session, row: Row, size: nat)
    requires DataGood(s) && Known(s.sessions, session, row) && TrackedOrClosed(s, session, row)
    requires Completes(s, s', pid, row.key, size)
    ensures DataGood(s') && Evolves(s, s', pid) && Owns(s', pid, session, row)
  {
    assert s.uploads[session].key == row.key;
    CompletedKeepsData(s, s', pid, row.key, size);
    CompletedEvolves(s, s', pid, row.key, size);
    forall f | f in s.insertedBy
      ensures s.insertedBy[f] != session
    {
      assert Closed(s.multiparts, s.sessions[s.insertedBy[f]].key);
    }
  }

  ghost predicate Commits(s: State, s': State, session: Session, row: Row, file: FileId) {
    && file !in s.insertedBy && CanInsert(s, session, row)
    && s' == Commit(s, session, row, file).(procs := s'.procs, replies := s'.replies)
    && s'.replies <= s.replies + {(session, file)}
  }

  lemma CommitKeepsTracked(s: State, s': State, session: Session, row: Row, file: FileId)
    requires ObjectsTracked(s) && Commits(s, s', session, row, file) && s.uploads[session] == row && file !in s.files
    ensures ObjectsTracked(s')
    ensures forall k :: HeldByFile(s.files, k) ==> HeldByFile(s'.files, k)
  {
    assert file in s'.files && s'.files[file] == row;
    forall k | HeldByFile(s.files, k)
      ensures HeldByFile(s'.files, k)
    {
      var f :| f in s.files && s.files[f].key == k;
      assert f in s'.files && s'.files[f].key == k;
    }
    forall k | k in s'.objects
      ensures HeldByFile(s'.files, k) || HeldByUpload(s'.uploads, k)
    {
      if !HeldByFile(s.files, k) {
        var u :| u in s.uploads && s.uploads[u].key == k;
        assert u != session ==> u in s'.uploads && s'.uploads[u].key == k;
      }
    }
  }

  lemma CommitKeepsSessions(s: State, s': State, pid: Pid, session: Session, row: Row, file: FileId)
    requires DataGood(s) && Known(s.sessions, session, row) && Owns(s, pid, session, row)
    requires Commits(s, s', session, row, file)
    ensures UploadsGood(s') && StartingGood(s')
  {
    forall u | u != session && NeverInserted(s.insertedBy, u)
      ensures NeverInserted(s'.insertedBy, u)
    {
    }
    assert session in s.uploads;
  }

  lemma CommitKeepsFiles(s: State, s': State, pid: Pid, session: Session, row: Row, file: FileId)
    requires FilesGood(s) && Known(s.sessions, session, row) && Owns(s, pid, session, row)
    requires Commits(s, s', session, row, file)
    ensures FilesGood(s')
  {
    forall f | f in s'.files
      ensures KnownFile(s', f, s'.files[f])
    {
      assert f != file ==> KnownFile(s, f, s.files[f]);
    }
  }

  lemma CommitKeepsInserted(s: State, s': State, pid: Pid, session: Session, row: Row, file: FileId)
    requires InsertedOnce(s) && RepliesGood(s) && Known(s.sessions, session, row) && Owns(s, pid, session, row)
    requires Commits(s, s', session, row, file)
    ensures InsertedOnce(s') && RepliesGood(s')
  {
  }

  lemma CommitEvolves(s: State, s': State, pid: Pid, session: Session, row: Row, file: FileId)
    requires Known(s.sessions, session, row) && Owns(s, pid, session, row)
    requires Commits(s, s', session, row, file)
    requires forall k :: HeldByFile(s.files, k) ==> HeldByFile(s'.files, k)
    ensures Evolves(s, s', pid)
  {
  }

  lemma CommitKeeps(s: State, s': State, pid: Pid, session: Session, row: Row, file: FileId)
    requires DataGood(s) && Known(s.sessions, session, row) && Owns(s, pid, session, row)
    requires Commits(s, s', session, row, file)
    ensures DataGood(s') && Evolves(s, s', pid)
  {
    assert KnownFile(s, file, row) || file !in s.files;
    CommitKeepsTracked(s, s', session, row, file);
    CommitKeepsSessions(s, s', pid, session, row, file);
    CommitKeepsFiles(s, s', pid, session, row, file);
    CommitKeepsInserted(s, s', pid, session, row, file);
    CommitEvolves(s, s', pid, session, row, file);
  }

  // ---- Every step keeps the invariant ----

  /** Data and the moving request are enough: the others are stable. */
  lemma Conclude(s: State, s': State, mover: Pid)
    requires Inv(s) && DataGood(s') && Evolves(s, s', mover)
    requires forall pid :: pid in s'.procs && pid != mover ==> pid in s.procs && s'.procs[pid] == s.procs[pid]
    requires mover in s'.procs ==> ProcGood(s', mover, s'.procs[mover])
    ensures Inv(s')
  {
    forall pid | pid in s'.procs && pid != mover
      ensures ProcGood(s', pid, s'.procs[pid])
    {
      ProcStable(s, s', mover, pid, s.procs[pid]);
    }
  }

  lemma ConcludeGo(s: State, s': State, mover: Pid, p: Proc)
    requires Inv(s) && DataGood(s') && Evolves(s, s', mover)
    requires s'.procs == s.procs[mover := p] && ProcGood(s', mover, p)
    ensures Inv(s')
  {
    Conclude(s, s', mover);
  }

  lemma ConcludeEnd(s: State, s': State, mover: Pid)
    requires Inv(s) && DataGood(s') && Evolves(s, s', mover)
    requires s'.procs == s.procs - {mover}
    ensures Inv(s')
  {
    Conclude(s, s', mover);
  }

  /** Start requests and the outside world only add sessions, rows and multiparts, or close multiparts. */
  ghost predicate Grows(s: State, s': State) {
    && s'.objects == s.objects && s'.files == s.files && s'.insertedBy == s.insertedBy
    && s'.completer == s.completer && s'.procs == s.procs
    && (forall u :: u in s.sessions ==> u in s'.sessions && s'.sessions[u] == s.sessions[u])
    && (forall u :: u in s.uploads ==> u in s'.uploads)
    && s.multiparts.Keys <= s'.multiparts.Keys
    && (forall k :: Closed(s.multiparts, k) ==> Closed(s'.multiparts, k))
  }

  lemma GrowthEvolves(s: State, s': State, mover: Pid)
    requires Grows(s, s')
    ensures Evolves(s, s', mover)
  {
  }

  lemma ConcludeStart(s: State, s': State)
    requires Inv(s) && DataGood(s') && Grows(s, s')
    ensures Inv(s')
  {
    forall pid | pid in s'.procs
      ensures ProcGood(s', pid, s'.procs[pid])
    {
      GrowthEvolves(s, s', pid + 1);
      ProcStable(s, s', pid + 1, pid, s.procs[pid]);
    }
  }

  /** A request that only reads moves on to a state that the same data justifies. */
  lemma ReadKeeps(s: State, pid: Pid, p: Proc)
    requires Inv(s) && ProcGood(s, pid, p)
    ensures Inv(Go(s, pid, p))
  {
    var s' := Go(s, pid, p);
    SameDataKeeps(s, s', pid);
    ProcSame(s, s', pid, p);
    Conclude(s, s', pid);
  }

  lemma ProcSame(s: State, s': State, pid: Pid, p: Proc)
    requires SameData(s, s') && ProcGood(s, pid, p)
    ensures ProcGood(s', pid, p)
  {
  }

  lemma EndKeeps(s: State, pid: Pid)
    requires Inv(s)
    ensures Inv(End(s, pid))
  {
    SameDataKeeps(s, End(s, pid), pid);
    Conclude(s, End(s, pid), pid);
  }

  lemma WorldKeeps(s: State, s': State)
    requires Inv(s) && SameData(s, s') && s'.procs == s.procs && s'.replies == s.replies
    ensures Inv(s')
  {
    SameDataKeeps(s, s', 0);
    ConcludeStart(s, s');
  }

  // start

  lemma BeginStartDistinct(s: State, s': State, session: Session, share: ShareId, key: Key, newShare: bool)
    requires SessionsDistinct(s) && InsertedOnce(s) && OnBeginStart(s, session, share, key, newShare) == Some(s')
    ensures session !in s.sessions && SessionsDistinct(s') && InsertedOnce(s')
  {
    assert !exists o :: o in s.sessions && s.sessions[o].key == key;
  }

  lemma BeginStartData(s: State, s': State, session: Session, share: ShareId, key: Key, newShare: bool)
    requires DataGood(s) && OnBeginStart(s, session, share, key, newShare) == Some(s')
    ensures DataGood(s')
  {
    BeginStartDistinct(s, s', session, share, key, newShare);
    NewSessionIsUnknown(s, s', session);
    assert StartingGood(s');
  }

  lemma NewSessionIsUnknown(s: State, s': State, session: Session)
    requires DataGood(s) && session !in s.sessions
    requires session in s'.sessions
    requires s' == s.(sessions := s.sessions[session := s'.sessions[session]],
                      starting := s'.starting, shares := s'.shares)
    ensures session !in s.uploads && NeverInserted(s.insertedBy, session)
    ensures UploadsGood(s') && FilesGood(s')
  {
    forall u | u in s.uploads
      ensures u != session && Known(s'.sessions, u, s.uploads[u])
    {
      assert Known(s.sessions, u, s.uploads[u]);
    }
    forall f | f in s.files
      ensures KnownFile(s', f, s.files[f])
    {
      assert KnownFile(s, f, s.files[f]);
    }
  }

  lemma BeginStartKeeps(s: State, session: Session, share: ShareId, key: Key, newShare: bool)
    requires Inv(s) && OnBeginStart(s, session, share, key, newShare).Some?
    ensures Inv(OnBeginStart(s, session, share, key, newShare).value)
  {
    var s' := OnBeginStart(s, session, share, key, newShare).value;
    BeginStartData(s, s', session, share, key, newShare);
    ConcludeStart(s, s');
  }

  lemma MultipartCreatedOpens(s: State, s': State, session: Session)
    requires SessionsDistinct(s) && StartingGood(s) && OnMultipartCreated(s, session) == Some(s')
    ensures var key := s.sessions[session].key; key !in s.multiparts && s'.multiparts == s.multiparts[key := Open]
    ensures StartingGood(s')
    ensures forall k :: Closed(s.multiparts, k) <==> Closed(s'.multiparts, k)
  {
    var key := s.sessions[session].key;
    forall u | u in s.sessions && s.sessions[u].key == key
      ensures u == session
    {
    }
  }

  lemma MultipartCreatedData(s: State, s': State, session: Session)
    requires DataGood(s) && OnMultipartCreated(s, session) == Some(s')
    ensures DataGood(s')
    ensures forall k :: Closed(s.multiparts, k) <==> Closed(s'.multiparts, k)
  {
    MultipartCreatedOpens(s, s', session);
    FilesFrame(s, s');
  }

  lemma MultipartCreatedKeeps(s: State, session: Session)
    requires Inv(s) && OnMultipartCreated(s, session).Some?
    ensures Inv(OnMultipartCreated(s, session).value)
  {
    var s' := OnMultipartCreated(s, session).value;
    MultipartCreatedData(s, s', session);
    ConcludeStart(s, s');
  }

  lemma SessionInsertedUploads(s: State, s': State, session: Session, reported: bool)
    requires UploadsGood(s) && StartingGood(s) && OnSessionInserted(s, session, reported) == Some(s')
    ensures UploadsGood(s') && StartingGood(s')
  {
  }

  lemma SessionInsertedTracked(s: State, s': State, session: Session, reported: bool)
    requires ObjectsTracked(s) && OnSessionInserted(s, session, reported) == Some(s') && session !in s.uploads
    ensures ObjectsTracked(s')
  {
    forall k | HeldByUpload(s.uploads, k)
      ensures HeldByUpload(s'.uploads, k)
    {
      var u :| u in s.uploads && s.uploads[u].key == k;
      assert u in s'.uploads && s'.uploads[u].key == k;
    }
  }

  lemma SessionInsertedData(s: State, s': State, session: Session, reported: bool)
    requires DataGood(s) && OnSessionInserted(s, session, reported) == Some(s')
    ensures DataGood(s')
  {
    SessionInsertedUploads(s, s', session, reported);
    SessionInsertedTracked(s, s', session, reported);
    FilesFrame(s, s');
  }

  lemma SessionInsertedKeeps(s: State, session: Session, reported: bool)
    requires Inv(s) && OnSessionInserted(s, session, reported).Some?
    ensures Inv(OnSessionInserted(s, session, reported).value)
  {
    var s' := OnSessionInserted(s, session, reported).value;
    SessionInsertedData(s, s', session, reported);
    ConcludeStart(s, s');
  }

  /** A start request that gives up, or dies, changes nothing but its own record. */
  lemma StartEndsKeeps(s: State, s': State)
    requires Inv(s) && s' == s.(starting := s'.starting)
    requires forall u :: u in s'.starting ==>
             u in s.starting && (s'.starting[u] == s.starting[u] || s'.starting[u].Compensating?)
    ensures Inv(s')
  {
    assert DataGood(s');
    ConcludeStart(s, s');
  }

  lemma CompensatedKeeps(s: State, session: Session)
    requires Inv(s) && OnCompensated(s, session).Some?
    ensures Inv(OnCompensated(s, session).value)
  {
    var s' := OnCompensated(s, session).value;
    AbortKeepsData(s, s', s.sessions[session].key);
    ConcludeStart(s, s');
  }

  // complete

  lemma FoundIsRegistered(s: State, row: Row, file: FileId, session: Session)
    requires DataGood(s) && Known(s.sessions, session, row) && file in s.files && s.files[file] == row
    ensures file in s.insertedBy && s.insertedBy[file] == session
  {
    assert KnownFile(s, file, row);
  }

  lemma BeginCompleteKeeps(s: State, pid: Pid, session: Session)
    requires Inv(s) && OnBeginComplete(s, pid, session).Some?
    ensures Inv(OnBeginComplete(s, pid, session).value)
  {
    ReadKeeps(s, pid, ReadingParts(session, s.uploads[session]));
  }

  lemma PartsReadKeeps(s: State, pid: Pid)
    requires Inv(s) && OnPartsRead(s, pid).Some?
    ensures Inv(OnPartsRead(s, pid).value)
  {
    var p := s.procs[pid];
    assert ProcGood(s, pid, p);
    if p.session in s.parts {
      ReadKeeps(s, pid, Completing(p.session, p.row));
    } else {
      EndKeeps(s, pid);
    }
  }

  /** The call itself: the object is there, and the request that made it has a reply to act on or none. */
  lemma R2CompletedIs(s: State, pid: Pid, size: nat, reported: bool)
    requires OnR2Completed(s, pid, size, reported).Some?
    ensures pid in s.procs && s.procs[pid].Completing?
    ensures var s', p := OnR2Completed(s, pid, size, reported).value, s.procs[pid];
            && Completes(s, s', pid, p.row.key, size)
            && s'.procs == if reported then s.procs[pid := CheckingSize(p.session, p.row, size)] else s.procs - {pid}
  {
  }

  lemma R2CompletedKeeps(s: State, pid: Pid, size: nat, reported: bool)
    requires Inv(s) && OnR2Completed(s, pid, size, reported).Some?
    ensures Inv(OnR2Completed(s, pid, size, reported).value)
  {
    var s', p := OnR2Completed(s, pid, size, reported).value, s.procs[pid];
    assert ProcGood(s, pid, p);
    R2CompletedIs(s, pid, size, reported);
    CompletedKeeps(s, s', pid, p.session, p.row, size);
    OwnerConcludes(s, s', pid, p.session, p.row, size, reported);
  }

  lemma OwnerConcludes(s: State, s': State, pid: Pid, session: Session, row: Row, size: nat, reported: bool)
    requires Inv(s) && DataGood(s') && Evolves(s, s', pid)
    requires Known(s'.sessions, session, row) && Owns(s', pid, session, row)
    requires s'.procs == if reported then s.procs[pid := CheckingSize(session, row, size)] else s.procs - {pid}
    ensures Inv(s')
  {
    if reported {
      ConcludeGo(s, s', pid, CheckingSize(session, row, size));
    } else {
      ConcludeEnd(s, s', pid);
    }
  }

  lemma R2MissingKeeps(s: State, pid: Pid)
    requires Inv(s) && OnR2Missing(s, pid).Some?
    ensures Inv(OnR2Missing(s, pid).value)
  {
    var p := s.procs[pid];
    assert ProcGood(s, pid, p);
    ReadKeeps(s, pid, FindingExisting(p.session, p.row));
  }

  lemma ExistingFoundKeeps(s: State, pid: Pid, file: FileId)
    requires Inv(s) && OnExistingFound(s, pid, file).Some?
    ensures Inv(OnExistingFound(s, pid, file).value)
  {
    var s', p := OnExistingFound(s, pid, file).value, s.procs[pid];
    assert ProcGood(s, pid, p);
    if file in s.files && s.files[file] == p.row {
      FoundIsRegistered(s, p.row, file, p.session);
      SameDataKeeps(s, s', pid);
      Conclude(s, s', pid);
    } else {
      EndKeeps(s, pid);
    }
  }

  lemma SizeCheckedKeeps(s: State, pid: Pid, limit: nat)
    requires Inv(s) && OnSizeChecked(s, pid, limit).Some?
    ensures Inv(OnSizeChecked(s, pid, limit).value)
  {
    var p := s.procs[pid];
    assert ProcGood(s, pid, p);
    var plain := PlaintextSize(p.size);
    if plain.None? {
      EndKeeps(s, pid);
    } else if plain.value > limit {
      ReadKeeps(s, pid, DeletingOversized(p.session, p.row));
    } else {
      ReadKeeps(s, pid, Committing(p.session, p.row));
    }
  }

  /** The object a completing request still owns is named by no files row. */
  lemma OwnedIsUnregistered(s: State, pid: Pid, session: Session, row: Row)
    requires DataGood(s) && Known(s.sessions, session, row) && Owns(s, pid, session, row)
    ensures !HeldByFile(s.files, row.key)
  {
    forall f | f in s.files
      ensures s.files[f].key != row.key
    {
      assert KnownFile(s, f, s.files[f]);
    }
  }

  lemma OversizedDeletedKeeps(s: State, pid: Pid)
    requires Inv(s) && OnOversizedDeleted(s, pid).Some?
    ensures Inv(OnOversizedDeleted(s, pid).value)
  {
    var s', p := OnOversizedDeleted(s, pid).value, s.procs[pid];
    assert ProcGood(s, pid, p);
    OwnedIsUnregistered(s, pid, p.session, p.row);
    ObjectsDeletedKeeps(s, s', {p.row.key}, pid);
    ConcludeGo(s, s', pid, ForgettingOversized(p.session, p.row));
  }

  lemma OversizedForgottenKeeps(s: State, pid: Pid)
    requires Inv(s) && OnOversizedForgotten(s, pid).Some?
    ensures Inv(OnOversizedForgotten(s, pid).value)
  {
    var s', p := OnOversizedForgotten(s, pid).value, s.procs[pid];
    assert ProcGood(s, pid, p);
    assert p.session in s.uploads ==> Known(s.sessions, p.session, s.uploads[p.session]);
    RowsEnd(s, ForgetSession(s, p.session), pid);
  }

  lemma CommittedKeeps(s: State, pid: Pid, file: FileId, reported: bool)
    requires Inv(s) && OnCommitted(s, pid, file, reported).Some?
    ensures Inv(OnCommitted(s, pid, file, reported).value)
  {
    var p := s.procs[pid];
    assert ProcGood(s, pid, p);
    if CanInsert(s, p.session, p.row) {
      CommitSucceeds(s, OnCommitted(s, pid, file, reported).value, pid, p.session, p.row, file);
    } else {
      NothingCommitted(s, pid, p.session, p.row, file);
      if reported {
        ReadKeeps(s, pid, FindingExisting(p.session, p.row));
      } else {
        EndKeeps(s, pid);
      }
    }
  }

  lemma CommitSucceeds(s: State, s': State, pid: Pid, session: Session, row: Row, file: FileId)
    requires Inv(s) && Known(s.sessions, session, row) && Owns(s, pid, session, row)
    requires Commits(s, s', session, row, file) && s'.procs == s.procs - {pid}
    ensures Inv(s')
  {
    CommitKeeps(s, s', pid, session, row, file);
    Conclude(s, s', pid);
  }

  /** The owner's commit either registers the file or leaves the database alone. */
  lemma NothingCommitted(s: State, pid: Pid, session: Session, row: Row, file: FileId)
    requires DataGood(s) && Known(s.sessions, session, row) && Owns(s, pid, session, row) && !CanInsert(s, session, row)
    ensures Commit(s, session, row, file) == s
  {
    OwnedIsUnregistered(s, pid, session, row);
    forall f | f in s.files
      ensures s.files[f] != row
    {
    }
  }

  // cleanup

  lemma InspectedIsKnown(s: State, sessions: seq<Session>)
    requires DataGood(s) && forall u :: u in sessions ==> u in s.uploads
    ensures forall j :: 0 <= j < |sessions| ==>
              Known(s.sessions, Inspect(s, sessions)[j].0, Inspect(s, sessions)[j].1)
                && Inspect(s, sessions)[j].1.key in s.multiparts
  {
    forall j | 0 <= j < |sessions|
      ensures Known(s.sessions, sessions[j], s.uploads[sessions[j]])
    {
      assert sessions[j] in sessions;
    }
  }

  lemma BeginStaleKeeps(s: State, pid: Pid, session: Session)
    requires Inv(s) && OnBeginStale(s, pid, session).Some?
    ensures Inv(OnBeginStale(s, pid, session).value)
  {
    ReadKeeps(s, pid, Retiring(Cleanup([(session, s.uploads[session])], StaleUpload), 0, AbortCall));
  }

  lemma BeginDeleteShareKeeps(s: State, pid: Pid, share: ShareId, found: set<FileId>)
    requires Inv(s) && OnBeginDeleteShare(s, pid, share, found).Some?
    ensures Inv(OnBeginDeleteShare(s, pid, share, found).value)
  {
    ReadKeeps(s, pid, ReadingUploads(share, map f | f in found && f in s.files :: s.files[f]));
  }

  lemma UploadsReadKeeps(s: State, pid: Pid, sessions: seq<Session>)
    requires Inv(s) && OnUploadsRead(s, pid, sessions).Some?
    ensures Inv(OnUploadsRead(s, pid, sessions).value)
  {
    assert ProcGood(s, pid, s.procs[pid]);
    InspectedIsKnown(s, sessions);
    ReadKeeps(s, pid,
      CheckingReferences(Cleanup(Inspect(s, sessions), WholeShare(s.procs[pid].share, s.procs[pid].found))));
  }

  lemma ReferencesCheckedKeeps(s: State, pid: Pid)
    requires Inv(s) && OnReferencesChecked(s, pid).Some?
    ensures Inv(OnReferencesChecked(s, pid).value)
  {
    var job := s.procs[pid].job;
    assert ProcGood(s, pid, s.procs[pid]);
    EndKeeps(s, pid);
    if |job.ups| > 0 {
      ReadKeeps(s, pid, Retiring(job, 0, AbortCall));
    } else {
      ReadKeeps(s, pid, DeletingObjects(job));
    }
  }

  /** The call itself, and where its request goes on. */
  lemma R2AbortedIs(s: State, pid: Pid)
    requires OnR2Aborted(s, pid).Some?
    ensures pid in s.procs && s.procs[pid].Retiring? && s.procs[pid].i < |s.procs[pid].job.ups|
            && s.procs[pid].call.AbortCall?
    ensures var s', p := OnR2Aborted(s, pid).value, s.procs[pid];
            Aborts(s, s', p.job.ups[p.i].1.key) && s'.procs == s.procs[pid := Retiring(p.job, p.i, HeadCall)]
  {
  }

  lemma R2AbortedKeeps(s: State, pid: Pid)
    requires Inv(s) && OnR2Aborted(s, pid).Some?
    ensures Inv(OnR2Aborted(s, pid).value)
  {
    R2AbortedIs(s, pid);
    assert ProcGood(s, pid, s.procs[pid]);
    AbortConcludes(s, OnR2Aborted(s, pid).value, pid, s.procs[pid].job, s.procs[pid].i);
  }

  lemma AbortConcludes(s: State, s': State, pid: Pid, job: Cleanup, i: nat)
    requires Inv(s) && i < |job.ups| && Aborts(s, s', job.ups[i].1.key)
    requires ProcGood(s, pid, Retiring(job, i, AbortCall))
    requires s'.procs == s.procs[pid := Retiring(job, i, HeadCall)]
    ensures Inv(s')
  {
    AbortedProc(s, s', pid, job, i);
    ConcludeGo(s, s', pid, Retiring(job, i, HeadCall));
  }

  lemma AbortedProc(s: State, s': State, pid: Pid, job: Cleanup, i: nat)
    requires DataGood(s) && i < |job.ups| && Aborts(s, s', job.ups[i].1.key)
    requires ProcGood(s, pid, Retiring(job, i, AbortCall))
    ensures DataGood(s') && Evolves(s, s', pid)
    ensures ProcGood(s', pid, Retiring(job, i, HeadCall))
  {
    AbortKeeps(s, s', job.ups[i].1.key, pid);
    JobStable(s, s', pid, job, i);
  }

  lemma NextUploadGood(s: State, pid: Pid, job: Cleanup, i: nat)
    requires JobKnown(s, job) && i < |job.ups| && RetiredUpTo(s, job, i) && Safe(s, job.ups[i].1.key)
    ensures ProcGood(s, pid, NextUpload(job, i))
  {
    assert RetiredUpTo(s, job, i + 1);
  }

  lemma HeadedKeeps(s: State, pid: Pid)
    requires Inv(s) && OnHeaded(s, pid).Some?
    ensures Inv(OnHeaded(s, pid).value)
  {
    var p := s.procs[pid];
    assert ProcGood(s, pid, p);
    if p.job.ups[p.i].1.key in s.objects {
      ReadKeeps(s, pid, Retiring(p.job, p.i, LookupCall));
    } else {
      NextUploadGood(s, pid, p.job, p.i);
      ReadKeeps(s, pid, NextUpload(p.job, p.i));
    }
  }

  lemma LookedUpKeeps(s: State, pid: Pid)
    requires Inv(s) && OnLookedUp(s, pid).Some?
    ensures Inv(OnLookedUp(s, pid).value)
  {
    var p := s.procs[pid];
    assert ProcGood(s, pid, p);
    if HeldByFile(s.files, p.job.ups[p.i].1.key) {
      NextUploadGood(s, pid, p.job, p.i);
      ReadKeeps(s, pid, NextUpload(p.job, p.i));
    } else {
      EndKeeps(s, pid);
    }
  }

  lemma FoundAreRegistered(s: State, job: Cleanup, keys: set<Key>)
    requires DataGood(s) && JobKnown(s, job) && job.target.WholeShare?
    requires keys == set f | f in job.target.files :: job.target.files[f].key
    ensures forall k :: k in keys ==> Registered(s, k) && Closed(s.multiparts, k)
  {
    forall k | k in keys
      ensures Registered(s, k) && Closed(s.multiparts, k)
    {
      var f :| f in job.target.files && job.target.files[f].key == k;
      assert KnownFile(s, f, job.target.files[f]);
    }
  }

  /** The data half of deleting any of the inspected files' objects. */
  lemma InspectedObjectsGo(s: State, s': State, pid: Pid, job: Cleanup, keys: set<Key>, gone: set<Key>)
    requires DataGood(s) && JobKnown(s, job) && job.target.WholeShare? && gone <= keys
    requires keys == set f | f in job.target.files :: job.target.files[f].key
    requires s' == s.(objects := s.objects - gone, retired := s.retired + gone, procs := s'.procs)
    ensures DataGood(s') && Evolves(s, s', pid)
    ensures forall k :: k in gone ==> Gone(s', k)
  {
    FoundAreRegistered(s, job, keys);
    ObjectsDeletedKeeps(s, s', gone, pid);
  }

  /** The request half: it goes on to the rows, whose objects are gone. */
  lemma RowsAreNext(s: State, s': State, pid: Pid, job: Cleanup, keys: set<Key>)
    requires Evolves(s, s', pid) && JobKnown(s, job) && RetiredUpTo(s, job, |job.ups|)
    requires job.target.WholeShare? && keys == set f | f in job.target.files :: job.target.files[f].key
    requires forall k :: k in keys ==> Gone(s', k)
    ensures ProcGood(s', pid, DeletingRows(job))
  {
    JobStable(s, s', pid, job, |job.ups|);
    assert forall f :: f in job.target.files ==> job.target.files[f].key in keys;
  }

  lemma ObjectsDeletedStepKeeps(s: State, pid: Pid)
    requires Inv(s) && OnObjectsDeleted(s, pid).Some?
    ensures Inv(OnObjectsDeleted(s, pid).value)
  {
    var s', job := OnObjectsDeleted(s, pid).value, s.procs[pid].job;
    assert ProcGood(s, pid, s.procs[pid]);
    var keys := set f | f in job.target.files :: job.target.files[f].key;
    InspectedObjectsGo(s, s', pid, job, keys, keys);
    RowsAreNext(s, s', pid, job, keys);
    ConcludeGo(s, s', pid, DeletingRows(job));
  }

  lemma ObjectsPartlyDeletedKeeps(s: State, pid: Pid, gone: set<Key>)
    requires Inv(s) && OnObjectsPartlyDeleted(s, pid, gone).Some?
    ensures Inv(OnObjectsPartlyDeleted(s, pid, gone).value)
  {
    var s', job := OnObjectsPartlyDeleted(s, pid, gone).value, s.procs[pid].job;
    assert ProcGood(s, pid, s.procs[pid]);
    InspectedObjectsGo(s, s', pid, job, set f | f in job.target.files :: job.target.files[f].key, gone);
    ConcludeEnd(s, s', pid);
  }

  /** The rows a cleanup deletes are those it retired, and files whose objects it deleted. */
  lemma DeletedRowsAreSafe(s: State, job: Cleanup)
    requires DataGood(s) && JobKnown(s, job) && RetiredUpTo(s, job, |job.ups|)
    requires job.target.WholeShare? ==> forall f :: f in job.target.files ==> Gone(s, job.target.files[f].key)
    ensures var s' := DeleteInspected(s, job);
            && RowsGo(s, s') && s'.procs == s.procs
            && (forall u :: u in s.uploads && u !in s'.uploads ==> Safe(s, s.uploads[u].key))
            && (forall f :: f in s.files && f !in s'.files ==> Gone(s, s.files[f].key))
  {
    var s' := DeleteInspected(s, job);
    forall u | u in s.uploads && u !in s'.uploads
      ensures Safe(s, s.uploads[u].key)
    {
      var p :| p in job.ups && p.0 == u;
      var j :| 0 <= j < |job.ups| && job.ups[j] == p;
      assert Known(s.sessions, u, s.uploads[u]) && Known(s.sessions, p.0, p.1);
    }
    forall f | f in s.files && f !in s'.files
      ensures Gone(s, s.files[f].key)
    {
      assert KnownFile(s, f, s.files[f]) && KnownFile(s, f, job.target.files[f]);
    }
  }

  lemma RowsEnd(s: State, s': State, pid: Pid)
    requires Inv(s) && RowsGo(s, s') && s'.procs == s.procs
    requires forall u :: u in s.uploads && u !in s'.uploads ==> Safe(s, s.uploads[u].key)
    requires forall f :: f in s.files && f !in s'.files ==> Gone(s, s.files[f].key)
    ensures Inv(End(s', pid))
  {
    RowsDeletedKeeps(s, End(s', pid), pid);
    Conclude(s, End(s', pid), pid);
  }

  lemma RowsDeletedStepKeeps(s: State, pid: Pid)
    requires Inv(s) && OnRowsDeleted(s, pid).Some?
    ensures Inv(OnRowsDeleted(s, pid).value)
  {
    assert ProcGood(s, pid, s.procs[pid]);
    DeletedRowsAreSafe(s, s.procs[pid].job);
    RowsEnd(s, DeleteInspected(s, s.procs[pid].job), pid);
  }

  lemma BeginOneTimeKeeps(s: State, pid: Pid, file: FileId)
    requires Inv(s) && OnBeginOneTime(s, pid, file).Some?
    ensures Inv(OnBeginOneTime(s, pid, file).value)
  {
    ReadKeeps(s, pid, OneTimeObject(file, s.files[file]));
  }

  lemma OneTimeObjectDeletedKeeps(s: State, pid: Pid)
    requires Inv(s) && OnOneTimeObjectDeleted(s, pid).Some?
    ensures Inv(OnOneTimeObjectDeleted(s, pid).value)
  {
    var s', p := OnOneTimeObjectDeleted(s, pid).value, s.procs[pid];
    assert ProcGood(s, pid, p) && KnownFile(s, p.file, p.row);
    assert Registered(s, p.row.key);
    ObjectsDeletedKeeps(s, s', {p.row.key}, pid);
    ConcludeGo(s, s', pid, OneTimeRow(p.file, p.row));
  }

  lemma OneTimeRowDeletedKeeps(s: State, pid: Pid)
    requires Inv(s) && OnOneTimeRowDeleted(s, pid).Some?
    ensures Inv(OnOneTimeRowDeleted(s, pid).value)
  {
    var s', p := OnOneTimeRowDeleted(s, pid).value, s.procs[pid];
    assert ProcGood(s, pid, p) && KnownFile(s, p.file, p.row);
    assert p.file in s.files ==> KnownFile(s, p.file, s.files[p.file]);
    RowsEnd(s, s.(files := s.files - {p.file}), pid);
  }

  lemma PartRecordedKeeps(s: State, session: Session)
    requires Inv(s) && OnPartRecorded(s, session).Some?
    ensures Inv(OnPartRecorded(s, session).value)
  {
    WorldKeeps(s, OnPartRecorded(s, session).value);
  }

  lemma ShareChangedKeeps(s: State, share: ShareId, accessible: bool)
    requires Inv(s) && OnShareChanged(s, share, accessible).Some?
    ensures Inv(OnShareChanged(s, share, accessible).value)
  {
    WorldKeeps(s, OnShareChanged(s, share, accessible).value);
  }

  predicate StartEvent(e: Event) {
    e.BeginStart? || e.MultipartCreated? || e.SessionInserted? || e.InsertFailed? || e.Compensated?
      || e.StartDied?
  }

  lemma StartStepKeeps(s: State, e: Event)
    requires Inv(s) && StartEvent(e) && Step(s, e).Some?
    ensures Inv(Step(s, e).value)
  {
    if e.BeginStart? {
      BeginStartKeeps(s, e.session, e.share, e.key, e.newShare);
    } else if e.MultipartCreated? {
      MultipartCreatedKeeps(s, e.session);
    } else if e.SessionInserted? {
      SessionInsertedKeeps(s, e.session, e.reported);
    } else if e.InsertFailed? {
      StartEndsKeeps(s, OnInsertFailed(s, e.session).value);
    } else if e.Compensated? {
      CompensatedKeeps(s, e.session);
    } else {
      StartEndsKeeps(s, OnStartDied(s, e.session).value);
    }
  }

  predicate CompleteEvent(e: Event) {
    e.BeginComplete? || e.PartsRead? || e.R2Completed? || e.R2Missing? || e.ExistingFound? || e.SizeChecked?
      || e.OversizedDeleted? || e.OversizedForgotten? || e.Committed?
  }

  lemma CompleteStepKeeps(s: State, e: Event)
    requires Inv(s) && CompleteEvent(e) && Step(s, e).Some?
    ensures Inv(Step(s, e).value)
  {
    match e
    case BeginComplete(pid, session) => BeginCompleteKeeps(s, pid, session);
    case PartsRead(pid) => PartsReadKeeps(s, pid);
    case R2Completed(pid, size, reported) => R2CompletedKeeps(s, pid, size, reported);
    case R2Missing(pid) => R2MissingKeeps(s, pid);
    case ExistingFound(pid, file) => ExistingFoundKeeps(s, pid, file);
    case SizeChecked(pid, limit) => SizeCheckedKeeps(s, pid, limit);
    case OversizedDeleted(pid) => OversizedDeletedKeeps(s, pid);
    case OversizedForgotten(pid) => OversizedForgottenKeeps(s, pid);
    case Committed(pid, file, reported) => CommittedKeeps(s, pid, file, reported);
  }

  predicate CleanupEvent(e: Event) {
    e.BeginStale? || e.BeginDeleteShare? || e.UploadsRead? || e.ReferencesChecked? || e.R2Aborted?
      || e.Headed? || e.LookedUp? || e.ObjectsDeleted? || e.ObjectsPartlyDeleted? || e.RowsDeleted?
  }

  lemma RetireStepKeeps(s: State, e: Event)
    requires Inv(s) && Step(s, e).Some?
    requires e.BeginStale? || e.BeginDeleteShare? || e.UploadsRead? || e.ReferencesChecked? || e.R2Aborted?
    ensures Inv(Step(s, e).value)
  {
    if e.BeginStale? {
      BeginStaleKeeps(s, e.pid, e.session);
    } else if e.BeginDeleteShare? {
      BeginDeleteShareKeeps(s, e.pid, e.share, e.found);
    } else if e.UploadsRead? {
      UploadsReadKeeps(s, e.pid, e.sessions);
    } else if e.ReferencesChecked? {
      ReferencesCheckedKeeps(s, e.pid);
    } else {
      R2AbortedKeeps(s, e.pid);
    }
  }

  lemma CleanupStepKeeps(s: State, e: Event)
    requires Inv(s) && CleanupEvent(e) && Step(s, e).Some?
    ensures Inv(Step(s, e).value)
  {
    if e.Headed? {
      HeadedKeeps(s, e.pid);
    } else if e.LookedUp? {
      LookedUpKeeps(s, e.pid);
    } else if e.ObjectsDeleted? {
      ObjectsDeletedStepKeeps(s, e.pid);
    } else if e.ObjectsPartlyDeleted? {
      ObjectsPartlyDeletedKeeps(s, e.pid, e.gone);
    } else if e.RowsDeleted? {
      RowsDeletedStepKeeps(s, e.pid);
    } else {
      RetireStepKeeps(s, e);
    }
  }

  predicate OneTimeEvent(e: Event) {
    e.BeginOneTime? || e.OneTimeObjectDeleted? || e.OneTimeRowDeleted?
  }

  lemma OneTimeStepKeeps(s: State, e: Event)
    requires Inv(s) && OneTimeEvent(e) && Step(s, e).Some?
    ensures Inv(Step(s, e).value)
  {
    match e
    case BeginOneTime(pid, file) => BeginOneTimeKeeps(s, pid, file);
    case OneTimeObjectDeleted(pid) => OneTimeObjectDeletedKeeps(s, pid);
    case OneTimeRowDeleted(pid) => OneTimeRowDeletedKeeps(s, pid);
  }

  predicate WorldEvent(e: Event) {
    e.Died? || e.PartRecorded? || e.ShareChanged?
  }

  lemma WorldStepKeeps(s: State, e: Event)
    requires Inv(s) && WorldEvent(e) && Step(s, e).Some?
    ensures Inv(Step(s, e).value)
  {
    if e.Died? {
      EndKeeps(s, e.pid);
    } else if e.PartRecorded? {
      PartRecordedKeeps(s, e.session);
    } else {
      ShareChangedKeeps(s, e.share, e.accessible);
    }
  }

  lemma StepKeepsInv(s: State, e: Event)
    requires Inv(s) && Step(s, e).Some?
    ensures Inv(Step(s, e).value)
  {
    if StartEvent(e) {
      StartStepKeeps(s, e);
    } else if CompleteEvent(e) {
      CompleteStepKeeps(s, e);
    } else if CleanupEvent(e) {
      CleanupStepKeeps(s, e);
    } else if OneTimeEvent(e) {
      OneTimeStepKeeps(s, e);
    } else {
      WorldStepKeeps(s, e);
    }
  }

  lemma {:induction false} RunKeepsInv(s: State, events: seq<Event>)
    requires Inv(s) && Run(s, events).Some?
    ensures Inv(Run(s, events).value)
    decreases |events|
  {
    if |events| > 0 {
      StepKeepsInv(s, events[0]);
      RunKeepsInv(Step(s, events[0]).value, events[1..]);
    }
  }

  // ---- The guarantees ----

  /**
   * In every reachable state of any interleaving, with requests dying or seeing wrong errors anywhere,
   * every object in storage is named by an uploads row or a files row.
   */
  lemma EveryObjectIsTracked(events: seq<Event>, key: Key)
    requires Run(Init(), events).Some? && key in Run(Init(), events).value.objects
    ensures var s := Run(Init(), events).value;
            HeldByFile(s.files, key) || HeldByUpload(s.uploads, key)
  {
    RunKeepsInv(Init(), events);
  }

  /** A session inserts at most one files row ever, and all its successful replies name that row. */
  lemma OneFilePerSession(events: seq<Event>)
    requires Run(Init(), events).Some?
    ensures var s := Run(Init(), events).value;
            && (forall f, g :: f in s.insertedBy && g in s.insertedBy && s.insertedBy[f] == s.insertedBy[g] ==> f == g)
            && (forall r, q :: r in s.replies && q in s.replies && r.0 == q.0 ==> r.1 == q.1)
            && (forall r :: r in s.replies ==> r.1 in s.insertedBy && s.insertedBy[r.1] == r.0)
  {
    RunKeepsInv(Init(), events);
  }

  /**
   * The compensating deletion of an oversized object never removes a registered file's object, and a
   * registered file keeps its object until a route that deletes files removes it.
   */
  lemma CompensationSparesFiles(events: seq<Event>)
    requires Run(Init(), events).Some?
    ensures var s := Run(Init(), events).value;
            && (forall pid :: pid in s.procs && s.procs[pid].DeletingOversized? ==>
                  !HeldByFile(s.files, s.procs[pid].row.key))
            && (forall f :: f in s.files ==> s.files[f].key in s.objects || s.files[f].key in s.retired)
  {
    RunKeepsInv(Init(), events);
    var s := Run(Init(), events).value;
    forall pid | pid in s.procs && s.procs[pid].DeletingOversized?
      ensures !HeldByFile(s.files, s.procs[pid].row.key)
    {
      assert ProcGood(s, pid, s.procs[pid]);
      OwnedIsUnregistered(s, pid, s.procs[pid].session, s.procs[pid].row);
    }
  }

  // ---- A run that gets through ----

  lemma {:induction false} RunThen(s: State, events: seq<Event>, u: State, e: Event)
    requires Run(s, events) == Some(u)
    ensures Run(s, events + [e]) == Step(u, e)
    decreases |events|
  {
    if |events| == 0 {
      assert events + [e] == [e];
      assert [e][1..] == [];
    } else {
      assert (events + [e])[1..] == events[1..] + [e];
      RunThen(Step(s, events[0]).value, events[1..], u, e);
    }
  }

  /** The calls of one upload that nothing disturbs. */
  function Undisturbed(size: nat, limit: nat): (events: seq<Event>)
    ensures |events| == 9
  {
    [BeginStart(0, 0, 0, true), MultipartCreated(0), SessionInserted(0, true), PartRecorded(0), BeginComplete(0, 0),
     PartsRead(0), R2Completed(0, size, true), SizeChecked(0, limit), Committed(0, 0, true)]
  }

  /** The state after the first `n` of them. */
  function Stage(n: nat, size: nat): State
    requires n <= 9
  {
    var row := Row(0, 0);
    State(if n < 2 then map[] else if n < 7 then map[0 := Open] else map[0 := Completed],
          if n < 7 then map[] else map[0 := size],
          if n < 1 then map[] else map[0 := true],
          if n < 3 || n == 9 then map[] else map[0 := row],
          if n < 4 || n == 9 then {} else {0},
          if n < 9 then map[] else map[0 := row],
          if n == 1 then map[0 := Creating] else if n == 2 then map[0 := Inserting] else map[],
          if n == 5 then map[0 := ReadingParts(0, row)] else if n == 6 then map[0 := Completing(0, row)]
          else if n == 7 then map[0 := CheckingSize(0, row, size)]
          else if n == 8 then map[0 := Committing(0, row)] else map[],
          if n < 1 then map[] else map[0 := row],
          if n < 7 then map[] else map[0 := 0],
          if n < 9 then map[] else map[0 := 0],
          if n < 9 then {} else {(0, 0)},
          {})
  }

  lemma OneEntry<V>(x: V, y: V)
    ensures map[0 := x][0 := y] == map[0 := y] && map[0 := x] - {0} == map[]
  {
  }

  lemma StartStage(n: nat, size: nat, limit: nat)
    requires n < 4
    ensures Step(Stage(n, size), Undisturbed(size, limit)[n]) == Some(Stage(n + 1, size))
  {
    OneEntry(Creating, Inserting);
    OneEntry(Inserting, Creating);
    assert {} + {0} == {0};
  }

  lemma CompleteStage(n: nat, size: nat, limit: nat)
    requires 4 <= n < 8 && PlaintextSize(size).Some? && PlaintextSize(size).value <= limit
    ensures Step(Stage(n, size), Undisturbed(size, limit)[n]) == Some(Stage(n + 1, size))
  {
    var row := Row(0, 0);
    OneEntry(ReadingParts(0, row), Completing(0, row));
    OneEntry(Completing(0, row), CheckingSize(0, row, size));
    OneEntry(CheckingSize(0, row, size), Committing(0, row));
    OneEntry(Open, Completed);
  }

  lemma CommitStage(size: nat)
    ensures OnCommitted(Stage(8, size), 0, 0, true) == Some(Stage(9, size))
  {
    var row := Row(0, 0);
    assert CanInsert(Stage(8, size), 0, row);
    OneEntry(Committing(0, row), Committing(0, row));
    OneEntry(row, row);
    assert {0} - {0} == {} && {} + {(0, 0)} == {(0, 0)};
  }

  lemma StageStep(n: nat, size: nat, limit: nat)
    requires n < 9 && PlaintextSize(size).Some? && PlaintextSize(size).value <= limit
    ensures Step(Stage(n, size), Undisturbed(size, limit)[n]) == Some(Stage(n + 1, size))
  {
    if n < 4 {
      StartStage(n, size, limit);
    } else if n < 8 {
      CompleteStage(n, size, limit);
    } else {
      CommitStage(size);
    }
  }

  lemma {:induction false} StageRun(n: nat, size: nat, limit: nat)
    requires n <= 9 && PlaintextSize(size).Some? && PlaintextSize(size).value <= limit
    ensures Run(Init(), Undisturbed(size, limit)[..n]) == Some(Stage(n, size))
  {
    var events := Undisturbed(size, limit);
    if n == 0 {
      assert Stage(0, size) == Init();
    } else {
      StageRun(n - 1, size, limit);
      RunThen(Init(), events[..n - 1], Stage(n - 1, size), events[n - 1]);
      assert events[..n - 1] + [events[n - 1]] == events[..n];
      StageStep(n - 1, size, limit);
    }
  }

  /** The guarantees are not empty: an upload within its limit that nothing disturbs ends in a successful reply. */
  lemma AnUploadSucceeds(size: nat, limit: nat)
    requires PlaintextSize(size).Some? && PlaintextSize(size).value <= limit
    ensures Run(Init(), Undisturbed(size, limit)).Some?
    ensures var s := Run(Init(), Undisturbed(size, limit)).value;
            (0, 0) in s.replies && s.objects == map[0 := size] && s.files == map[0 := Row(0, 0)] && s.uploads == map[]
  {
    StageRun(9, size, limit);
    assert Undisturbed(size, limit)[..9] == Undisturbed(size, limit);
  }
}
