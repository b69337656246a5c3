/**
 * The database batches of completion and cleanup, statement by statement as they are written, each
 * with its own WHERE clause over what the earlier statements left. A batch is one transaction.
 */
module UploadDatabase {
  import opened Bytes
  import opened UploadLifecycle

  predicate Inspected(ups: seq<(Session, Row)>, session: Session) {
    exists i :: 0 <= i < |ups| && ups[i].0 == session
  }

  lemma GoneAreInspected(ups: seq<(Session, Row)>)
    ensures forall u :: u in (set p | p in ups :: p.0) <==> Inspected(ups, u)
  {
    forall u | Inspected(ups, u)
      ensures u in (set p | p in ups :: p.0)
    {
      var i :| 0 <= i < |ups| && ups[i].0 == u;
      assert ups[i] in ups;
    }
  }

  class Database {
    var shares: map<ShareId, bool>
    var uploads: map<Session, Row>
    var parts: set<Session>
    var files: map<FileId, Row>

    constructor ()
      ensures Contents() == Init()
    {
      shares, uploads, parts, files := map[], map[], {}, map[];
    }

    /** The tables as part of a lifecycle state. */
    ghost function Contents(): State
      reads this
    {
      Init().(shares := shares, uploads := uploads, parts := parts, files := files)
    }

    /**
     * The guarded three-statement commit. The later statements look at the files table alone, so they
     * run even when nothing was inserted; together they still are one all-or-nothing change.
     */
    method CommitUpload(session: Session, row: Row, file: FileId) returns (committedId: Option<FileId>)
      requires session in uploads ==> uploads[session] == row
      modifies this
      ensures Contents() == Commit(old(Contents()), session, row, file).(insertedBy := map[])
      ensures committedId == if CanInsert(old(Contents()), session, row) then Some(file) else None
      ensures committedId.Some? <==>
                && session in old(uploads) && row.share in old(shares) && old(shares)[row.share]
                && forall f :: f in old(files) ==> old(files)[f].key != row.key
      ensures committedId.Some? ==> committedId == Some(file) && files == old(files)[file := row]
      ensures committedId.None? ==> files == old(files)
      ensures var done := committedId.Some? || row in old(files).Values;
              && uploads == (if done then old(uploads) - {session} else old(uploads))
              && parts == (if done then old(parts) - {session} else old(parts))
      ensures shares == old(shares)
    {
      committedId := None;
      // INSERT INTO files ... SELECT ... FROM uploads JOIN shares ... AND NOT EXISTS (same storage key)
      if session in uploads && uploads[session].share in shares && shares[uploads[session].share]
         && !HeldByFile(files, uploads[session].key) {
        files := files[file := uploads[session]];
        committedId := Some(file);
        assert files[file] == row;
      }
      // DELETE FROM upload_parts ... AND EXISTS (a file of this key and share)
      if row in files.Values {
        parts := parts - {session};
      }
      // DELETE FROM uploads ... AND EXISTS (a file of this key and share)
      if row in files.Values {
        uploads := uploads - {session};
      }
    }

    /**
     * The two-statement deletion of one session: its rows are gone from both tables, every other row of
     * the four tables stays as it is, and only this session's object can lose its tracking row.
     */
    method DeleteSession(session: Session)
      modifies this
      ensures session !in uploads && session !in parts
      ensures forall u :: u != session ==> (u in uploads <==> u in old(uploads)) && (u in parts <==> u in old(parts))
      ensures forall u :: u in uploads ==> uploads[u] == old(uploads)[u]
      ensures files == old(files) && shares == old(shares)
      ensures forall key :: HeldByUpload(old(uploads), key) && !HeldByUpload(uploads, key) ==>
                session in old(uploads) && old(uploads)[session].key == key
      ensures Contents() == ForgetSession(old(Contents()), session)
    {
      parts := parts - {session};
      uploads := uploads - {session};
      assert forall u :: u in old(uploads) && u != session ==> u in uploads;
    }

    /** The four-statement deletion of the rows of a share that were inspected. */
    method DeleteShareRows(share: ShareId, found: map<FileId, Row>, ups: seq<(Session, Row)>)
      modifies this
      ensures Contents() == DeleteInspected(old(Contents()), Cleanup(ups, WholeShare(share, found)))
      ensures forall f :: f in files <==> f in old(files) && !(f in found && old(files)[f].share == share)
      ensures forall f :: f in files ==> files[f] == old(files)[f]
      ensures forall u :: u in uploads <==> u in old(uploads) && !(old(uploads)[u].share == share && Inspected(ups, u))
      ensures forall u :: u in uploads ==> uploads[u] == old(uploads)[u]
      ensures forall u :: u in parts <==> u in old(parts) && !Inspected(ups, u)
      ensures forall x :: x != share ==> (x in shares <==> x in old(shares))
      ensures forall x :: x in shares ==> x in old(shares) && shares[x] == old(shares)[x]
      ensures share in shares && old(share in shares) <==>
                && old(share in shares)
                && ((exists u :: u in uploads && uploads[u].share == share)
                    || (exists f :: f in files && files[f].share == share))
    {
      var gone := set p | p in ups :: p.0;
      GoneAreInspected(ups);
      files := map f | f in files && !(f in found && files[f].share == share) :: files[f];
      parts := parts - gone;
      uploads := map u | u in uploads && !(u in gone && uploads[u].share == share) :: uploads[u];
      if !(exists f :: f in files && files[f].share == share)
        && !(exists u :: u in uploads && uploads[u].share == share) {
        shares := shares - {share};
      }
    }
  }
}
