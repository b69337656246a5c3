/**
 * Uploading against cleaning up. Object storage (R2) and the database (D1) share no transaction, so
 * start, complete, share deletion, stale-upload cleanup and one-time deletion interleave one storage
 * call or one database batch at a time. Each event below is one such call by one request; a request
 * may also die between any two calls, or see an error although its call took effect.
 */
module UploadLifecycle {
  import opened Bytes
  import opened Packet

  type Key = nat
  type Session = nat
  type FileId = nat
  type ShareId = nat
  type Pid = nat

  const SHARE_FILE_BATCH_SIZE: nat := 1000
  const SHARE_UPLOAD_BATCH_SIZE: nat := 20

  datatype Multipart = Open | Completed | Aborted

  /** An uploads row, and equally a files row: the share it belongs to and the object it names. */
  datatype Row = Row(share: ShareId, key: Key)

  datatype Starting = Creating | Inserting | Compensating

  datatype Target = StaleUpload | WholeShare(share: ShareId, files: map<FileId, Row>)

  /** The uploads rows one cleanup has read, and what it is for. */
  datatype Cleanup = Cleanup(ups: seq<(Session, Row)>, target: Target)

  datatype RetireCall = AbortCall | HeadCall | LookupCall

  /** A request between two calls, with what it remembers from its reads. */
  datatype Proc =
    | ReadingParts(session: Session, row: Row)
    | Completing(session: Session, row: Row)
    | FindingExisting(session: Session, row: Row)
    | CheckingSize(session: Session, row: Row, size: nat)
    | DeletingOversized(session: Session, row: Row)
    | ForgettingOversized(session: Session, row: Row)
    | Committing(session: Session, row: Row)
    | ReadingUploads(share: ShareId, found: map<FileId, Row>)
    | CheckingReferences(job: Cleanup)
    | Retiring(job: Cleanup, i: nat, call: RetireCall)
    | DeletingObjects(job: Cleanup)
    | DeletingRows(job: Cleanup)
    | OneTimeObject(file: FileId, row: Row)
    | OneTimeRow(file: FileId, row: Row)

  datatype State = State(
    // R2
    multiparts: map<Key, Multipart>,
    objects: map<Key, nat>,
    // D1; a share is accessible when neither expired nor suspended
    shares: map<ShareId, bool>,
    uploads: map<Session, Row>,
    parts: set<Session>,
    files: map<FileId, Row>,
    // requests under way
    starting: map<Session, Starting>,
    procs: map<Pid, Proc>,
    // history, read by no step: sessions begun, who completed an object, which session inserted a
    // files row, successful replies, and objects removed by the two routes that delete files
    sessions: map<Session, Row>,
    completer: map<Key, Pid>,
    insertedBy: map<FileId, Session>,
    replies: set<(Session, FileId)>,
    retired: set<Key>)

  datatype Event =
    // start
    | BeginStart(session: Session, share: ShareId, key: Key, newShare: bool)
    | MultipartCreated(session: Session)
    | SessionInserted(session: Session, reported: bool)
    | InsertFailed(session: Session)
    | Compensated(session: Session)
    | StartDied(session: Session)
    // complete
    | BeginComplete(pid: Pid, session: Session)
    | PartsRead(pid: Pid)
    | R2Completed(pid: Pid, size: nat, reported: bool)
    | R2Missing(pid: Pid)
    | ExistingFound(pid: Pid, file: FileId)
    | SizeChecked(pid: Pid, limit: nat)
    | OversizedDeleted(pid: Pid)
    | OversizedForgotten(pid: Pid)
    | Committed(pid: Pid, file: FileId, reported: bool)
    // cleanup
    | BeginStale(pid: Pid, session: Session)
    | BeginDeleteShare(pid: Pid, share: ShareId, found: set<FileId>)
    | UploadsRead(pid: Pid, sessions: seq<Session>)
    | ReferencesChecked(pid: Pid)
    | R2Aborted(pid: Pid)
    | Headed(pid: Pid)
    | LookedUp(pid: Pid)
    | ObjectsDeleted(pid: Pid)
    | ObjectsPartlyDeleted(pid: Pid, gone: set<Key>)
    | RowsDeleted(pid: Pid)
    // one-time deletion after a final download
    | BeginOneTime(pid: Pid, file: FileId)
    | OneTimeObjectDeleted(pid: Pid)
    | OneTimeRowDeleted(pid: Pid)
    // the rest of the world
    | Died(pid: Pid)
    | PartRecorded(session: Session)
    | ShareChanged(share: ShareId, accessible: bool)

  function Init(): State {
    State(map[], map[], map[], map[], {}, map[], map[], map[], map[], map[], map[], {}, {})
  }

  predicate HeldByFile(files: map<FileId, Row>, key: Key) {
    exists f :: f in files && files[f].key == key
  }

  predicate HeldByUpload(uploads: map<Session, Row>, key: Key) {
    exists u :: u in uploads && uploads[u].key == key
  }

  function Go(s: State, pid: Pid, p: Proc): State {
    s.(procs := s.procs[pid := p])
  }

  function End(s: State, pid: Pid): State {
    s.(procs := s.procs - {pid})
  }

  // ---- start ----

  function OnBeginStart(s: State, session: Session, share: ShareId, key: Key, newShare: bool): Option<State> {
    // Fresh random identifiers; a share is new or already there.
    if session in s.sessions || key in s.multiparts || (exists o :: o in s.sessions && s.sessions[o].key == key)
       || (newShare <==> share in s.shares) then None
    else Some(s.(shares := if newShare then s.shares[share := true] else s.shares,
                 sessions := s.sessions[session := Row(share, key)],
                 starting := s.starting[session := Creating]))
  }

  function OnMultipartCreated(s: State, session: Session): Option<State> {
    if session in s.starting && session in s.sessions && s.starting[session].Creating?
    then Some(s.(multiparts := s.multiparts[s.sessions[session].key := Open],
      starting := s.starting[session := Inserting]))
    else None
  }

  function OnSessionInserted(s: State, session: Session, reported: bool): Option<State> {
    // The row's share must still exist.
    if session in s.starting && session in s.sessions && s.starting[session].Inserting?
      && s.sessions[session].share in s.shares
    then Some(s.(uploads := s.uploads[session := s.sessions[session]],
                 starting := if reported then s.starting - {session} else s.starting[session := Compensating]))
    else None
  }

  function OnInsertFailed(s: State, session: Session): Option<State> {
    if session in s.starting && s.starting[session].Inserting?
    then Some(s.(starting := s.starting[session := Compensating]))
    else None
  }

  function OnCompensated(s: State, session: Session): Option<State> {
    if session in s.starting && session in s.sessions && s.starting[session].Compensating?
    then Some(s.(multiparts := Abort(s.multiparts, s.sessions[session].key), starting := s.starting - {session}))
    else None
  }

  function OnStartDied(s: State, session: Session): Option<State> {
    Some(s.(starting := s.starting - {session}))
  }

  /** Aborting has an effect only on an open multipart; otherwise R2 reports it missing. */
  function Abort(m: map<Key, Multipart>, key: Key): map<Key, Multipart> {
    if key in m && m[key].Open? then m[key := Aborted] else m
  }

  // ---- complete ----

  /** The compensating deletion of rows, and the deletion of one stale session. */
  function ForgetSession(s: State, session: Session): State {
    s.(uploads := s.uploads - {session}, parts := s.parts - {session})
  }

  predicate CanInsert(s: State, session: Session, row: Row) {
    session in s.uploads && row.share in s.shares && s.shares[row.share] && !HeldByFile(s.files, row.key)
  }

  /**
   * The guarded commit as one transaction: a files row replaces the session, or, when some request
   * already registered the object for this share, only the session goes; otherwise nothing happens.
   */
  function Commit(s: State, session: Session, row: Row, file: FileId): State {
    if CanInsert(s, session, row) then
      ForgetSession(s, session).(files := s.files[file := row], insertedBy := s.insertedBy[file := session])
    else if row in s.files.Values then ForgetSession(s, session)
    else s
  }

  function OnBeginComplete(s: State, pid: Pid, session: Session): Option<State> {
    if pid in s.procs || session !in s.uploads || s.uploads[session].share !in s.shares
      || !s.shares[s.uploads[session].share] then None
    else Some(Go(s, pid, ReadingParts(session, s.uploads[session])))
  }

  function OnPartsRead(s: State, pid: Pid): Option<State> {
    if pid !in s.procs || !s.procs[pid].ReadingParts? then None
    else if s.procs[pid].session !in s.parts then Some(End(s, pid))
    else Some(Go(s, pid, Completing(s.procs[pid].session, s.procs[pid].row)))
  }

  function OnR2Completed(s: State, pid: Pid, size: nat, reported: bool): Option<State> {
    if pid !in s.procs || !s.procs[pid].Completing? then None
    else
      var Completing(session, row) := s.procs[pid];
      if row.key !in s.multiparts || !s.multiparts[row.key].Open? then None
      else
        var s' := s.(multiparts := s.multiparts[row.key := Completed], objects := s.objects[row.key := size],
                     completer := s.completer[row.key := pid]);
        Some(if reported then Go(s', pid, CheckingSize(session, row, size)) else End(s', pid))
  }

  function OnR2Missing(s: State, pid: Pid): Option<State> {
    if pid !in s.procs || !s.procs[pid].Completing? then None
    else
      var Completing(session, row) := s.procs[pid];
      if row.key in s.multiparts && s.multiparts[row.key].Open? then None
      else Some(Go(s, pid, FindingExisting(session, row)))
  }

  function OnExistingFound(s: State, pid: Pid, file: FileId): Option<State> {
    if pid !in s.procs || !s.procs[pid].FindingExisting? then None
    else if file in s.files && s.files[file] == s.procs[pid].row
    then Some(End(s, pid).(replies := s.replies + {(s.procs[pid].session, file)}))
    else if s.procs[pid].row !in s.files.Values then Some(End(s, pid))
    else None
  }

  function OnSizeChecked(s: State, pid: Pid, limit: nat): Option<State> {
    if pid !in s.procs || !s.procs[pid].CheckingSize? then None
    else
      var CheckingSize(session, row, size) := s.procs[pid];
      var plain := PlaintextSize(size);
      if plain.None? then Some(End(s, pid))
      else Some(Go(s, pid, if plain.value > limit then DeletingOversized(session, row) else Committing(session, row)))
  }

  function OnOversizedDeleted(s: State, pid: Pid): Option<State> {
    if pid !in s.procs || !s.procs[pid].DeletingOversized? then None
    else
      var DeletingOversized(session, row) := s.procs[pid];
      Some(Go(s.(objects := s.objects - {row.key}), pid, ForgettingOversized(session, row)))
  }

  function OnOversizedForgotten(s: State, pid: Pid): Option<State> {
    if pid !in s.procs || !s.procs[pid].ForgettingOversized? then None
    else Some(End(ForgetSession(s, s.procs[pid].session), pid))
  }

  function OnCommitted(s: State, pid: Pid, file: FileId, reported: bool): Option<State> {
    if pid !in s.procs || !s.procs[pid].Committing? || file in s.insertedBy then None
    else
      var Committing(session, row) := s.procs[pid];
      var s' := Commit(s, session, row, file);
      if !reported then Some(End(s', pid))
      else if CanInsert(s, session, row) then Some(End(s', pid).(replies := s.replies + {(session, file)}))
      else Some(Go(s', pid, FindingExisting(session, row)))
  }

  // ---- cleanup ----

  function Inspect(s: State, sessions: seq<Session>): seq<(Session, Row)>
    requires forall u :: u in sessions ==> u in s.uploads
  {
    seq(|sessions|, i requires 0 <= i < |sessions| => (sessions[i], s.uploads[sessions[i]]))
  }

  /** The rows a cleanup deletes, each only if it is still in the share that was read. */
  function DeleteInspected(s: State, job: Cleanup): State {
    var gone := set p | p in job.ups :: p.0;
    match job.target
    case StaleUpload => s.(uploads := s.uploads - gone, parts := s.parts - gone)
    case WholeShare(share, found) =>
      var uploads := map u | u in s.uploads && !(u in gone && s.uploads[u].share == share) :: s.uploads[u];
      var files := map f | f in s.files && !(f in found && s.files[f].share == share) :: s.files[f];
      var inUse := (exists u :: u in uploads && uploads[u].share == share)
                   || (exists f :: f in files && files[f].share == share);
      s.(uploads := uploads, files := files, parts := s.parts - gone,
         shares := if inUse then s.shares else s.shares - {share})
  }

  /** After the last upload is retired: rows at once, or first the objects of the inspected files. */
  function NextUpload(job: Cleanup, i: nat): Proc {
    if i + 1 < |job.ups| then Retiring(job, i + 1, AbortCall)
    else if job.target.StaleUpload? then DeletingRows(job)
    else DeletingObjects(job)
  }

  function OnBeginStale(s: State, pid: Pid, session: Session): Option<State> {
    if pid in s.procs || session !in s.uploads then None
    else Some(Go(s, pid, Retiring(Cleanup([(session, s.uploads[session])], StaleUpload), 0, AbortCall)))
  }

  function OnBeginDeleteShare(s: State, pid: Pid, share: ShareId, found: set<FileId>): Option<State> {
    if pid in s.procs || |found| > SHARE_FILE_BATCH_SIZE
      || (exists f :: f in found && (f !in s.files || s.files[f].share != share)) then None
    else Some(Go(s, pid, ReadingUploads(share, map f | f in found && f in s.files :: s.files[f])))
  }

  function OnUploadsRead(s: State, pid: Pid, sessions: seq<Session>): Option<State> {
    if pid !in s.procs || !s.procs[pid].ReadingUploads? || |sessions| > SHARE_UPLOAD_BATCH_SIZE
       || (exists u :: u in sessions && (u !in s.uploads || s.uploads[u].share != s.procs[pid].share)) then None
    else
      var target := WholeShare(s.procs[pid].share, s.procs[pid].found);
      Some(Go(s, pid, CheckingReferences(Cleanup(Inspect(s, sessions), target))))
  }

  function OnReferencesChecked(s: State, pid: Pid): Option<State> {
    if pid !in s.procs || !s.procs[pid].CheckingReferences? || !s.procs[pid].job.target.WholeShare? then None
    else
      var job := s.procs[pid].job;
      var found := job.target.files;
      if exists f, g :: f in s.files && f !in found && g in found && s.files[f].key == found[g].key
      then Some(End(s, pid))
      else Some(Go(s, pid, if |job.ups| > 0 then Retiring(job, 0, AbortCall) else DeletingObjects(job)))
  }

  function OnR2Aborted(s: State, pid: Pid): Option<State> {
    if pid !in s.procs || !s.procs[pid].Retiring? || !s.procs[pid].call.AbortCall?
      || s.procs[pid].i >= |s.procs[pid].job.ups| then None
    else
      var Retiring(job, i, _) := s.procs[pid];
      Some(Go(s.(multiparts := Abort(s.multiparts, job.ups[i].1.key)), pid, Retiring(job, i, HeadCall)))
  }

  function OnHeaded(s: State, pid: Pid): Option<State> {
    if pid !in s.procs || !s.procs[pid].Retiring? || !s.procs[pid].call.HeadCall?
      || s.procs[pid].i >= |s.procs[pid].job.ups| then None
    else
      var Retiring(job, i, _) := s.procs[pid];
      Some(Go(s, pid, if job.ups[i].1.key in s.objects then Retiring(job, i, LookupCall) else NextUpload(job, i)))
  }

  function OnLookedUp(s: State, pid: Pid): Option<State> {
    if pid !in s.procs || !s.procs[pid].Retiring? || !s.procs[pid].call.LookupCall?
      || s.procs[pid].i >= |s.procs[pid].job.ups| then None
    else
      var Retiring(job, i, _) := s.procs[pid];
      // An object without a files row needs a human: keep its tracking row.
      Some(if HeldByFile(s.files, job.ups[i].1.key) then Go(s, pid, NextUpload(job, i)) else End(s, pid))
  }

  function OnObjectsDeleted(s: State, pid: Pid): Option<State> {
    if pid !in s.procs || !s.procs[pid].DeletingObjects? || !s.procs[pid].job.target.WholeShare? then None
    else
      var job := s.procs[pid].job;
      var keys := set f | f in job.target.files :: job.target.files[f].key;
      Some(Go(s.(objects := s.objects - keys, retired := s.retired + keys), pid, DeletingRows(job)))
  }

  /** A deletion of several keys may fail after removing some of them; the request ends. */
  function OnObjectsPartlyDeleted(s: State, pid: Pid, gone: set<Key>): Option<State> {
    if pid !in s.procs || !s.procs[pid].DeletingObjects? || !s.procs[pid].job.target.WholeShare? then None
    else
      var found := s.procs[pid].job.target.files;
      var keys := set f | f in found :: found[f].key;
      if gone <= keys then Some(End(s.(objects := s.objects - gone, retired := s.retired + gone), pid)) else None
  }

  function OnRowsDeleted(s: State, pid: Pid): Option<State> {
    if pid !in s.procs || !s.procs[pid].DeletingRows? then None
    else Some(End(DeleteInspected(s, s.procs[pid].job), pid))
  }

  function OnBeginOneTime(s: State, pid: Pid, file: FileId): Option<State> {
    if pid in s.procs || file !in s.files then None else Some(Go(s, pid, OneTimeObject(file, s.files[file])))
  }

  function OnOneTimeObjectDeleted(s: State, pid: Pid): Option<State> {
    if pid !in s.procs || !s.procs[pid].OneTimeObject? then None
    else
      var OneTimeObject(file, row) := s.procs[pid];
      Some(Go(s.(objects := s.objects - {row.key}, retired := s.retired + {row.key}), pid, OneTimeRow(file, row)))
  }

  function OnOneTimeRowDeleted(s: State, pid: Pid): Option<State> {
    if pid !in s.procs || !s.procs[pid].OneTimeRow? then None
    else Some(End(s.(files := s.files - {s.procs[pid].file}), pid))
  }

  function OnDied(s: State, pid: Pid): Option<State> {
    Some(End(s, pid))
  }

  function OnPartRecorded(s: State, session: Session): Option<State> {
    if session in s.uploads then Some(s.(parts := s.parts + {session})) else None
  }

  function OnShareChanged(s: State, share: ShareId, accessible: bool): Option<State> {
    if share in s.shares then Some(s.(shares := s.shares[share := accessible])) else None
  }

  function Step(s: State, e: Event): Option<State> {
    match e
    case BeginStart(session, share, key, newShare) => OnBeginStart(s, session, share, key, newShare)
    case MultipartCreated(session) => OnMultipartCreated(s, session)
    case SessionInserted(session, reported) => OnSessionInserted(s, session, reported)
    case InsertFailed(session) => OnInsertFailed(s, session)
    case Compensated(session) => OnCompensated(s, session)
    case StartDied(session) => OnStartDied(s, session)
    case BeginComplete(pid, session) => OnBeginComplete(s, pid, session)
    case PartsRead(pid) => OnPartsRead(s, pid)
    case R2Completed(pid, size, reported) => OnR2Completed(s, pid, size, reported)
    case R2Missing(pid) => OnR2Missing(s, pid)
    case ExistingFound(pid, file) => OnExistingFound(s, pid, file)
    case SizeChecked(pid, limit) => OnSizeChecked(s, pid, limit)
    case OversizedDeleted(pid) => OnOversizedDeleted(s, pid)
    case OversizedForgotten(pid) => OnOversizedForgotten(s, pid)
    case Committed(pid, file, reported) => OnCommitted(s, pid, file, reported)
    case BeginStale(pid, session) => OnBeginStale(s, pid, session)
    case BeginDeleteShare(pid, share, found) => OnBeginDeleteShare(s, pid, share, found)
    case UploadsRead(pid, sessions) => OnUploadsRead(s, pid, sessions)
    case ReferencesChecked(pid) => OnReferencesChecked(s, pid)
    case R2Aborted(pid) => OnR2Aborted(s, pid)
    case Headed(pid) => OnHeaded(s, pid)
    case LookedUp(pid) => OnLookedUp(s, pid)
    case ObjectsDeleted(pid) => OnObjectsDeleted(s, pid)
    case ObjectsPartlyDeleted(pid, gone) => OnObjectsPartlyDeleted(s, pid, gone)
    case RowsDeleted(pid) => OnRowsDeleted(s, pid)
    case BeginOneTime(pid, file) => OnBeginOneTime(s, pid, file)
    case OneTimeObjectDeleted(pid) => OnOneTimeObjectDeleted(s, pid)
    case OneTimeRowDeleted(pid) => OnOneTimeRowDeleted(s, pid)
    case Died(pid) => OnDied(s, pid)
    case PartRecorded(session) => OnPartRecorded(s, session)
    case ShareChanged(share, accessible) => OnShareChanged(s, share, accessible)
  }

  function Run(s: State, events: seq<Event>): Option<State>
    decreases |events|
  {
    if |events| == 0 then Some(s)
    else
      match Step(s, events[0])
      case None => None
      case Some(s') => Run(s', events[1..])
  }
}
