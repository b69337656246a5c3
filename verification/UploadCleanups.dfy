/** That each clean-up gets done: what a cleanup, a compensation or a deletion leaves when nothing disturbs it. */
module UploadCleanups {
  import opened Bytes
  import opened Packet
  import opened UploadInvariants
  import opened UploadLifecycle

  lemma OneMore(s: State, e: Event, u: State, rest: seq<Event>, t: State)
    requires Step(s, e) == Some(u) && Run(u, rest) == Some(t)
    ensures Run(s, [e] + rest) == Some(t)
  {
    assert ([e] + rest)[1..] == rest;
  }

  lemma Peel(one: seq<Event>, other: seq<Event>)
    requires |one| > 0
    ensures one + other == [one[0]] + (one[1..] + other)
  {
  }

  lemma {:induction false} RunsJoin(s: State, one: seq<Event>, u: State, other: seq<Event>, t: State)
    requires Run(s, one) == Some(u) && Run(u, other) == Some(t)
    ensures Run(s, one + other) == Some(t)
    decreases |one|
  {
    if |one| == 0 {
      assert one + other == other;
    } else {
      var a := Step(s, one[0]).value;
      RunsJoin(a, one[1..], u, other, t);
      Peel(one, other);
      OneMore(s, one[0], a, one[1..] + other, t);
    }
  }

  lemma OneStep(s: State, e: Event, t: State)
    requires Step(s, e) == Some(t)
    ensures Run(s, [e]) == Some(t)
  {
    OneMore(s, e, t, [], t);
    assert [e] == [e] + [];
  }

  lemma TwoSteps(s: State, e: Event, a: State, e': Event, t: State)
    requires Step(s, e) == Some(a) && Step(a, e') == Some(t)
    ensures Run(s, [e, e']) == Some(t)
  {
    OneStep(a, e', t);
    OneMore(s, e, a, [e'], t);
    assert [e, e'] == [e] + [e'];
  }

  lemma ThreeSteps(s: State, e: Event, a: State, e': Event, b: State, e'': Event, t: State)
    requires Step(s, e) == Some(a) && Step(a, e') == Some(b) && Step(b, e'') == Some(t)
    ensures Run(s, [e, e', e'']) == Some(t)
  {
    TwoSteps(a, e', b, e'', t);
    OneMore(s, e, a, [e', e''], t);
    assert [e, e', e''] == [e] + [e', e''];
  }

  /** A request's place is overwritten as it goes on, and free again when it ends. */
  lemma GoesOn(s: State, pid: Pid, p: Proc, q: Proc)
    ensures Go(Go(s, pid, p), pid, q) == Go(s, pid, q)
    ensures pid !in s.procs ==> End(Go(s, pid, p), pid) == s
    ensures pid in s.procs && s.procs[pid] == q ==> Go(s, pid, q) == s
  {
    Repeated(s.procs, pid, p, q);
    Repeated(s.procs, pid, q, q);
  }

  lemma Repeated<K, V>(m: map<K, V>, k: K, x: V, y: V)
    ensures m[k := x][k := y] == m[k := y]
    ensures k !in m ==> m[k := x] - {k} == m
    ensures k in m && m[k] == x ==> m[k := x] == m
  {
  }

  // ---- Retiring uploads ----

  /** There is no object under the key, or a files row holds it: the uploads row is not needed any more. */
  predicate Settled(s: State, key: Key) {
    key !in s.objects || HeldByFile(s.files, key)
  }

  predicate AllSettled(s: State, ups: seq<(Session, Row)>, i: nat) {
    forall j :: i <= j < |ups| ==> Settled(s, ups[j].1.key)
  }

  /** Nothing but the multipart uploads of these rows, which are open no more, and the request differ. */
  ghost predicate Retires(s: State, t: State, ups: seq<(Session, Row)>, i: nat) {
    && t == s.(multiparts := t.multiparts, procs := t.procs)
    && (forall k :: k in s.multiparts && !s.multiparts[k].Open? ==>
          k in t.multiparts && t.multiparts[k] == s.multiparts[k])
    && (forall j :: i <= j < |ups| && ups[j].1.key in t.multiparts ==> !t.multiparts[ups[j].1.key].Open?)
    && (forall k :: k in t.multiparts && t.multiparts[k].Open? ==> k in s.multiparts && s.multiparts[k].Open?)
  }

  function Aborting(s: State, job: Cleanup, i: nat): State
    requires i < |job.ups|
  {
    s.(multiparts := Abort(s.multiparts, job.ups[i].1.key))
  }

  lemma AbortIs(s: State, pid: Pid, job: Cleanup, i: nat)
    requires pid in s.procs && s.procs[pid] == Retiring(job, i, AbortCall) && i < |job.ups|
    ensures Step(s, R2Aborted(pid)) == Some(Go(Aborting(s, job, i), pid, Retiring(job, i, HeadCall)))
  {
  }

  lemma HeadIs(s: State, pid: Pid, job: Cleanup, i: nat)
    requires i < |job.ups|
    ensures var found := job.ups[i].1.key in s.objects;
            Step(Go(s, pid, Retiring(job, i, HeadCall)), Headed(pid))
            == Some(Go(s, pid, if found then Retiring(job, i, LookupCall) else NextUpload(job, i)))
  {
    GoesOn(s, pid, Retiring(job, i, HeadCall), Retiring(job, i, LookupCall));
    GoesOn(s, pid, Retiring(job, i, HeadCall), NextUpload(job, i));
  }

  lemma LookupIs(s: State, pid: Pid, job: Cleanup, i: nat)
    requires i < |job.ups|
    ensures var t := Go(s, pid, Retiring(job, i, LookupCall));
            Step(t, LookedUp(pid))
            == Some(if HeldByFile(s.files, job.ups[i].1.key) then Go(s, pid, NextUpload(job, i)) else End(t, pid))
  {
    GoesOn(s, pid, Retiring(job, i, LookupCall), NextUpload(job, i));
  }

  /** Abort, look for the object, and, when there is one, for a files row that holds it. */
  lemma RetireOne(s: State, pid: Pid, job: Cleanup, i: nat) returns (events: seq<Event>, t: State)
    requires pid in s.procs && s.procs[pid] == Retiring(job, i, AbortCall) && i < |job.ups|
    requires Settled(s, job.ups[i].1.key)
    ensures Run(s, events) == Some(t) && t == Go(Aborting(s, job, i), pid, NextUpload(job, i))
  {
    var u := Aborting(s, job, i);
    var a, b := Go(u, pid, Retiring(job, i, HeadCall)), Go(u, pid, Retiring(job, i, LookupCall));
    t := Go(u, pid, NextUpload(job, i));
    AbortIs(s, pid, job, i);
    HeadIs(u, pid, job, i);
    if job.ups[i].1.key in s.objects {
      LookupIs(u, pid, job, i);
      ThreeSteps(s, R2Aborted(pid), a, Headed(pid), b, LookedUp(pid), t);
      events := [R2Aborted(pid), Headed(pid), LookedUp(pid)];
    } else {
      TwoSteps(s, R2Aborted(pid), a, Headed(pid), t);
      events := [R2Aborted(pid), Headed(pid)];
    }
  }

  function Retired(job: Cleanup): Proc {
    if job.target.StaleUpload? then DeletingRows(job) else DeletingObjects(job)
  }

  lemma RetiresOn(s: State, u: State, t: State, ups: seq<(Session, Row)>, i: nat)
    requires i < |ups| && Retires(u, t, ups, i + 1)
    requires u == s.(multiparts := Abort(s.multiparts, ups[i].1.key), procs := u.procs)
    ensures Retires(s, t, ups, i)
  {
  }

  lemma {:induction false} RetireAll(s: State, pid: Pid, job: Cleanup, i: nat) returns (events: seq<Event>, t: State)
    requires pid in s.procs && s.procs[pid] == Retiring(job, i, AbortCall) && i < |job.ups|
    requires AllSettled(s, job.ups, i)
    ensures Run(s, events) == Some(t) && Retires(s, t, job.ups, i) && t.procs == s.procs[pid := Retired(job)]
    decreases |job.ups| - i
  {
    var u;
    events, u := RetireOne(s, pid, job, i);
    if i + 1 < |job.ups| {
      assert AllSettled(u, job.ups, i + 1);
      var rest;
      rest, t := RetireAll(u, pid, job, i + 1);
      RunsJoin(s, events, u, rest, t);
      Repeated(s.procs, pid, NextUpload(job, i), Retired(job));
      RetiresOn(s, u, t, job.ups, i);
      events := events + rest;
    } else {
      t := u;
    }
  }

  // ---- A stale upload ----

  lemma StaleUploadIsRetired(s: State, pid: Pid, session: Session) returns (events: seq<Event>, t: State, job: Cleanup)
    requires pid !in s.procs && session in s.uploads && Settled(s, s.uploads[session].key)
    ensures job == Cleanup([(session, s.uploads[session])], StaleUpload)
    ensures Run(s, events) == Some(t)
    ensures t == s.(multiparts := t.multiparts, procs := s.procs[pid := DeletingRows(job)])
    ensures s.uploads[session].key in t.multiparts ==> !t.multiparts[s.uploads[session].key].Open?
  {
    job := Cleanup([(session, s.uploads[session])], StaleUpload);
    var a := Go(s, pid, Retiring(job, 0, AbortCall));
    assert Step(s, BeginStale(pid, session)) == Some(a);
    var retiring;
    retiring, t := RetireAll(a, pid, job, 0);
    Repeated(s.procs, pid, Retiring(job, 0, AbortCall), DeletingRows(job));
    OneMore(s, BeginStale(pid, session), a, retiring, t);
    events := [BeginStale(pid, session)] + retiring;
    assert job.ups[0] == (session, s.uploads[session]);
  }

  /**
   * The cleanup of a stale upload, undisturbed: when the session's key has no object, or a files row
   * holds it, its multipart is open no more and its rows are gone; nothing else differs.
   */
  lemma StaleUploadIsForgotten(s: State, pid: Pid, session: Session) returns (events: seq<Event>, t: State)
    requires pid !in s.procs && session in s.uploads && Settled(s, s.uploads[session].key)
    ensures Run(s, events) == Some(t)
    ensures session !in t.uploads && session !in t.parts
    ensures forall u :: u != session ==> (u in t.uploads <==> u in s.uploads) && (u in t.parts <==> u in s.parts)
    ensures forall u :: u in t.uploads ==> u in s.uploads && t.uploads[u] == s.uploads[u]
    ensures s.uploads[session].key in t.multiparts ==> !t.multiparts[s.uploads[session].key].Open?
    ensures t == s.(multiparts := t.multiparts, uploads := t.uploads, parts := t.parts)
  {
    var retiring, a, job := StaleUploadIsRetired(s, pid, session);
    t := StaleRowsGo(a, pid, job);
    OneStep(a, RowsDeleted(pid), t);
    RunsJoin(s, retiring, a, [RowsDeleted(pid)], t);
    events := retiring + [RowsDeleted(pid)];
    Repeated(s.procs, pid, DeletingRows(job), DeletingRows(job));
    assert job.ups[0].0 == session;
  }

  /** In any state, the last step of such a cleanup deletes the rows it has read and no others. */
  lemma StaleRowsGo(s: State, pid: Pid, job: Cleanup) returns (t: State)
    requires pid in s.procs && s.procs[pid] == DeletingRows(job) && job.target.StaleUpload?
    ensures Step(s, RowsDeleted(pid)) == Some(t)
    ensures forall j :: 0 <= j < |job.ups| ==> job.ups[j].0 !in t.uploads && job.ups[j].0 !in t.parts
    ensures forall u :: (forall j :: 0 <= j < |job.ups| ==> job.ups[j].0 != u) ==>
              (u in t.uploads <==> u in s.uploads) && (u in t.parts <==> u in s.parts)
    ensures forall u :: u in t.uploads ==> u in s.uploads && t.uploads[u] == s.uploads[u]
    ensures t == s.(uploads := t.uploads, parts := t.parts, procs := s.procs - {pid})
  {
    t := OnRowsDeleted(s, pid).value;
    var gone := set p | p in job.ups :: p.0;
    assert t.uploads == s.uploads - gone && t.parts == s.parts - gone;
    forall j | 0 <= j < |job.ups|
      ensures job.ups[j].0 in gone
    {
      assert job.ups[j] in job.ups;
    }
  }

  /** An object that no files row holds needs a human: the session's rows stay, to keep track of it. */
  lemma UnregisteredObjectKeepsItsRow(s: State, pid: Pid, session: Session) returns (events: seq<Event>, t: State)
    requires pid !in s.procs && session in s.uploads && !Settled(s, s.uploads[session].key)
    ensures |events| > 0 && events[0] == BeginStale(pid, session) && Run(s, events) == Some(t)
    ensures t == s.(multiparts := Abort(s.multiparts, s.uploads[session].key))
  {
    var job := Cleanup([(session, s.uploads[session])], StaleUpload);
    var a := Go(s, pid, Retiring(job, 0, AbortCall));
    assert Step(s, BeginStale(pid, session)) == Some(a);
    assert job.ups[0].1 == s.uploads[session];
    var rest;
    rest, t := LookupStops(s, pid, job);
    events := [BeginStale(pid, session)] + rest;
    OneMore(s, BeginStale(pid, session), a, rest, t);
  }

  lemma LookupStops(s: State, pid: Pid, job: Cleanup) returns (events: seq<Event>, t: State)
    requires pid !in s.procs && |job.ups| > 0 && !Settled(s, job.ups[0].1.key)
    ensures Run(Go(s, pid, Retiring(job, 0, AbortCall)), events) == Some(t) && t == Aborting(s, job, 0)
  {
    t := Aborting(s, job, 0);
    var a := Go(s, pid, Retiring(job, 0, AbortCall));
    var b, c := Go(t, pid, Retiring(job, 0, HeadCall)), Go(t, pid, Retiring(job, 0, LookupCall));
    AbortIs(a, pid, job, 0);
    GoesOn(t, pid, Retiring(job, 0, AbortCall), Retiring(job, 0, HeadCall));
    HeadIs(t, pid, job, 0);
    LookupIs(t, pid, job, 0);
    GoesOn(t, pid, Retiring(job, 0, LookupCall), Retiring(job, 0, LookupCall));
    ThreeSteps(a, R2Aborted(pid), b, Headed(pid), c, LookedUp(pid), t);
    events := [R2Aborted(pid), Headed(pid), LookedUp(pid)];
  }

  // ---- Oversized objects and one-time files ----

  /** The compensation of an oversized upload, undisturbed: object and session are gone, nothing else differs. */
  lemma OversizedIsRolledBack(s: State, pid: Pid) returns (events: seq<Event>, t: State)
    requires pid in s.procs && s.procs[pid].DeletingOversized?
    ensures events == [OversizedDeleted(pid), OversizedForgotten(pid)] && Run(s, events) == Some(t)
    ensures var p := s.procs[pid];
            t == s.(objects := s.objects - {p.row.key}, uploads := s.uploads - {p.session},
                    parts := s.parts - {p.session}, procs := s.procs - {pid})
  {
    var DeletingOversized(session, row) := s.procs[pid];
    var a := Go(s.(objects := s.objects - {row.key}), pid, ForgettingOversized(session, row));
    t := End(ForgetSession(a, session), pid);
    assert s.procs[pid := ForgettingOversized(session, row)] - {pid} == s.procs - {pid};
    TwoSteps(s, OversizedDeleted(pid), a, OversizedForgotten(pid), t);
    events := [OversizedDeleted(pid), OversizedForgotten(pid)];
  }

  lemma StageIsOversized(size: nat, limit: nat)
    requires PlaintextSize(size).Some? && PlaintextSize(size).value > limit
    ensures Step(Stage(7, size), SizeChecked(0, limit)) == Some(Go(Stage(7, size), 0, DeletingOversized(0, Row(0, 0))))
  {
  }

  /** An upload beyond its limit that nothing disturbs leaves neither object nor rows. */
  lemma AnOversizedUploadLeavesNothing(size: nat, limit: nat) returns (events: seq<Event>)
    requires PlaintextSize(size).Some? && PlaintextSize(size).value > limit
    ensures events == Undisturbed(size, limit)[..8] + [OversizedDeleted(0), OversizedForgotten(0)]
    ensures Run(Init(), events).Some?
    ensures var s := Run(Init(), events).value;
            s.objects == map[] && s.uploads == map[] && s.parts == {} && s.files == map[] && s.procs == map[]
  {
    StageRun(7, size, PlaintextSize(size).value);
    var before := Undisturbed(size, limit)[..7];
    assert before == Undisturbed(size, PlaintextSize(size).value)[..7];
    var checked := Go(Stage(7, size), 0, DeletingOversized(0, Row(0, 0)));
    StageIsOversized(size, limit);
    RunThen(Init(), before, Stage(7, size), SizeChecked(0, limit));
    assert Undisturbed(size, limit)[..8] == before + [SizeChecked(0, limit)];
    var rest, t := OversizedIsRolledBack(checked, 0);
    RunsJoin(Init(), before + [SizeChecked(0, limit)], checked, rest, t);
    events := Undisturbed(size, limit)[..8] + rest;
  }

  /** One-time deletion, undisturbed: object and files row are gone, nothing else differs. */
  lemma OneTimeFileIsDeleted(s: State, pid: Pid, file: FileId) returns (events: seq<Event>, t: State)
    requires pid !in s.procs && file in s.files
    ensures events == [BeginOneTime(pid, file), OneTimeObjectDeleted(pid), OneTimeRowDeleted(pid)]
    ensures Run(s, events) == Some(t)
    ensures var key := s.files[file].key;
            t == s.(objects := s.objects - {key}, files := s.files - {file}, retired := s.retired + {key})
  {
    var row := s.files[file];
    var deleted := s.(objects := s.objects - {row.key}, retired := s.retired + {row.key});
    var a, b := Go(s, pid, OneTimeObject(file, row)), Go(deleted, pid, OneTimeRow(file, row));
    t := deleted.(files := s.files - {file});
    OneTimeObjectGoes(s, pid, file, row);
    OneTimeRowGoes(deleted, pid, file, row);
    ThreeSteps(s, BeginOneTime(pid, file), a, OneTimeObjectDeleted(pid), b, OneTimeRowDeleted(pid), t);
    events := [BeginOneTime(pid, file), OneTimeObjectDeleted(pid), OneTimeRowDeleted(pid)];
  }

  lemma OneTimeObjectGoes(s: State, pid: Pid, file: FileId, row: Row)
    ensures var deleted := s.(objects := s.objects - {row.key}, retired := s.retired + {row.key});
            Step(Go(s, pid, OneTimeObject(file, row)), OneTimeObjectDeleted(pid))
            == Some(Go(deleted, pid, OneTimeRow(file, row)))
  {
    Repeated(s.procs, pid, OneTimeObject(file, row), OneTimeRow(file, row));
  }

  lemma OneTimeRowGoes(s: State, pid: Pid, file: FileId, row: Row)
    requires pid !in s.procs
    ensures Step(Go(s, pid, OneTimeRow(file, row)), OneTimeRowDeleted(pid)) == Some(s.(files := s.files - {file}))
  {
    Repeated(s.procs, pid, OneTimeRow(file, row), OneTimeRow(file, row));
  }

  // ---- A start that fails, a completion that comes second ----

  /** A start whose row could not be inserted aborts its multipart upload and leaves no row. */
  lemma FailedStartIsUndone(s: State, session: Session) returns (events: seq<Event>, t: State)
    requires session in s.starting && s.starting[session].Inserting? && session in s.sessions
    ensures events == [InsertFailed(session), Compensated(session)] && Run(s, events) == Some(t)
    ensures t == s.(multiparts := t.multiparts, starting := s.starting - {session})
    ensures var key := s.sessions[session].key;
            key in s.multiparts && s.multiparts[key].Open? ==> t.multiparts == s.multiparts[key := Aborted]
  {
    var a := s.(starting := s.starting[session := Compensating]);
    t := OnCompensated(a, session).value;
    assert s.starting[session := Compensating] - {session} == s.starting - {session};
    TwoSteps(s, InsertFailed(session), a, Compensated(session), t);
    events := [InsertFailed(session), Compensated(session)];
  }

  /** A start whose row was inserted but that saw an error aborts as well; the row stays for a cleanup to find. */
  lemma UnsureStartIsAborted(s: State, session: Session) returns (events: seq<Event>, t: State)
    requires session in s.starting && s.starting[session].Inserting? && session in s.sessions
    requires s.sessions[session].share in s.shares
    ensures events == [SessionInserted(session, false), Compensated(session)] && Run(s, events) == Some(t)
    ensures t == s.(uploads := s.uploads[session := s.sessions[session]], multiparts := t.multiparts,
                    starting := s.starting - {session})
    ensures var key := s.sessions[session].key;
            key in s.multiparts && s.multiparts[key].Open? ==> t.multiparts == s.multiparts[key := Aborted]
  {
    var a := s.(uploads := s.uploads[session := s.sessions[session]],
                starting := s.starting[session := Compensating]);
    t := OnCompensated(a, session).value;
    assert s.starting[session := Compensating] - {session} == s.starting - {session};
    TwoSteps(s, SessionInserted(session, false), a, Compensated(session), t);
    events := [SessionInserted(session, false), Compensated(session)];
  }

  /** A completion that finds the multipart completed by another is answered with the file that one registered. */
  lemma SecondCompletionFindsTheFile(s: State, pid: Pid, file: FileId) returns (events: seq<Event>, t: State)
    requires pid in s.procs && s.procs[pid].Completing? && file in s.files && s.files[file] == s.procs[pid].row
    requires s.procs[pid].row.key in s.multiparts ==> !s.multiparts[s.procs[pid].row.key].Open?
    ensures events == [R2Missing(pid), ExistingFound(pid, file)] && Run(s, events) == Some(t)
    ensures t == s.(procs := s.procs - {pid}, replies := s.replies + {(s.procs[pid].session, file)})
  {
    var Completing(session, row) := s.procs[pid];
    var a := Go(s, pid, FindingExisting(session, row));
    t := s.(procs := s.procs - {pid}, replies := s.replies + {(session, file)});
    assert a.procs - {pid} == s.procs - {pid};
    TwoSteps(s, R2Missing(pid), a, ExistingFound(pid, file), t);
    events := [R2Missing(pid), ExistingFound(pid, file)];
  }

  /** A completion begins only, and always, for a session there is, in a share that is there and accessible. */
  lemma CompletionNeedsAccess(s: State, pid: Pid, session: Session)
    requires pid !in s.procs
    ensures Step(s, BeginComplete(pid, session)).Some? <==>
              && session in s.uploads && s.uploads[session].share in s.shares
              && s.shares[s.uploads[session].share]
    ensures Step(s, BeginComplete(pid, session)).Some? ==>
              Step(s, BeginComplete(pid, session)) == Some(Go(s, pid, ReadingParts(session, s.uploads[session])))
  {
  }

  lemma CommitWithoutAccess(s: State, pid: Pid, file: FileId, reported: bool) returns (t: State)
    requires pid in s.procs && s.procs[pid].Committing? && file !in s.insertedBy
    requires s.procs[pid].row.share in s.shares && !s.shares[s.procs[pid].row.share]
    ensures Step(s, Committed(pid, file, reported)) == Some(t)
    ensures t.files == s.files && t.objects == s.objects
    ensures s.procs[pid].row !in s.files.Values ==> t.uploads == s.uploads && t.parts == s.parts
  {
    t := OnCommitted(s, pid, file, reported).value;
  }

  /** A share suspended before the commit takes no file any more; the session stays, unless its file was there. */
  lemma SuspendedShareTakesNothing(s: State, pid: Pid, file: FileId, reported: bool)
    returns (events: seq<Event>, t: State)
    requires pid in s.procs && s.procs[pid].Committing? && file !in s.insertedBy && s.procs[pid].row.share in s.shares
    ensures events == [ShareChanged(s.procs[pid].row.share, false), Committed(pid, file, reported)]
    ensures Run(s, events) == Some(t) && t.files == s.files && t.objects == s.objects
    ensures s.procs[pid].row !in s.files.Values ==> t.uploads == s.uploads && t.parts == s.parts
  {
    var share := s.procs[pid].row.share;
    var a := s.(shares := s.shares[share := false]);
    t := CommitWithoutAccess(a, pid, file, reported);
    TwoSteps(s, ShareChanged(share, false), a, Committed(pid, file, reported), t);
    events := [ShareChanged(share, false), Committed(pid, file, reported)];
  }

  // ---- A share ----

  /** Different files rows name different objects. */
  lemma FilesAreDistinct(s: State, f: FileId, g: FileId)
    requires DataGood(s) && f in s.files && g in s.files && s.files[f].key == s.files[g].key
    ensures f == g
  {
    assert KnownFile(s, f, s.files[f]) && KnownFile(s, g, s.files[g]);
    assert s.insertedBy[f] == s.insertedBy[g];
  }

  function FilesOf(s: State, share: ShareId): set<FileId> {
    set f | f in s.files && s.files[f].share == share
  }

  ghost predicate ListsUploadsOf(s: State, share: ShareId, sessions: seq<Session>) {
    forall u :: u in sessions <==> u in s.uploads && s.uploads[u].share == share
  }

  /** Some file of the share names the object. */
  predicate NamedIn(s: State, share: ShareId, key: Key) {
    exists f :: f in s.files && s.files[f].share == share && s.files[f].key == key
  }

  /** The share, its uploads and files rows, and the objects of its files are gone; every other row stays. */
  ghost predicate ShareIsGone(s: State, t: State, share: ShareId) {
    && share !in t.shares
    && (forall x :: x in s.shares && x != share ==> x in t.shares && t.shares[x] == s.shares[x])
    && (forall u :: u in t.uploads <==> u in s.uploads && s.uploads[u].share != share)
    && (forall u :: u in t.uploads ==> t.uploads[u] == s.uploads[u])
    && (forall f :: f in t.files <==> f in s.files && s.files[f].share != share)
    && (forall f :: f in t.files ==> t.files[f] == s.files[f])
    && (forall k :: k in t.objects <==> k in s.objects && !NamedIn(s, share, k))
    && (forall k :: k in t.objects ==> t.objects[k] == s.objects[k])
  }

  function FoundIn(s: State, share: ShareId): map<FileId, Row> {
    map f | f in FilesOf(s, share) :: s.files[f]
  }

  lemma ShareIsBegun(s: State, pid: Pid, share: ShareId)
    requires pid !in s.procs && |FilesOf(s, share)| <= SHARE_FILE_BATCH_SIZE
    ensures Step(s, BeginDeleteShare(pid, share, FilesOf(s, share)))
            == Some(Go(s, pid, ReadingUploads(share, FoundIn(s, share))))
  {
    var found := FilesOf(s, share);
    var read := map f | f in found && f in s.files :: s.files[f];
    assert read == FoundIn(s, share);
    assert forall f :: f in found ==> f in s.files && s.files[f].share == share;
    assert OnBeginDeleteShare(s, pid, share, found) == Some(Go(s, pid, ReadingUploads(share, read)));
  }

  lemma UploadsAreRead(s: State, pid: Pid, share: ShareId, found: map<FileId, Row>, sessions: seq<Session>)
    requires ListsUploadsOf(s, share, sessions) && |sessions| <= SHARE_UPLOAD_BATCH_SIZE
    ensures Step(Go(s, pid, ReadingUploads(share, found)), UploadsRead(pid, sessions))
            == Some(Go(s, pid, CheckingReferences(Cleanup(Inspect(s, sessions), WholeShare(share, found)))))
  {
    var job := Cleanup(Inspect(s, sessions), WholeShare(share, found));
    Repeated(s.procs, pid, ReadingUploads(share, found), CheckingReferences(job));
  }

  function Inspected(job: Cleanup): Proc {
    if |job.ups| > 0 then Retiring(job, 0, AbortCall) else DeletingObjects(job)
  }

  lemma ReferencesAreFine(s: State, pid: Pid, share: ShareId, job: Cleanup)
    requires Inv(s) && job.target == WholeShare(share, FoundIn(s, share))
    ensures Step(Go(s, pid, CheckingReferences(job)), ReferencesChecked(pid)) == Some(Go(s, pid, Inspected(job)))
  {
    NoForeignReference(s, share);
    Repeated(s.procs, pid, CheckingReferences(job), Inspected(job));
  }

  /** The rows are read: the request is about to abort, or, with no upload under way, to delete the objects. */
  lemma ShareIsRead(s: State, pid: Pid, share: ShareId, sessions: seq<Session>)
    returns (events: seq<Event>, t: State, job: Cleanup)
    requires Inv(s) && pid !in s.procs && ListsUploadsOf(s, share, sessions)
    requires |FilesOf(s, share)| <= SHARE_FILE_BATCH_SIZE && |sessions| <= SHARE_UPLOAD_BATCH_SIZE
    ensures Run(s, events) == Some(t)
    ensures job == Cleanup(Inspect(s, sessions), WholeShare(share, FoundIn(s, share)))
    ensures t == Go(s, pid, Inspected(job))
  {
    var found := FoundIn(s, share);
    job := Cleanup(Inspect(s, sessions), WholeShare(share, found));
    t := Go(s, pid, Inspected(job));
    ShareIsBegun(s, pid, share);
    UploadsAreRead(s, pid, share, found, sessions);
    ReferencesAreFine(s, pid, share, job);
    events := [BeginDeleteShare(pid, share, FilesOf(s, share)), UploadsRead(pid, sessions), ReferencesChecked(pid)];
    ThreeSteps(s, events[0], Go(s, pid, ReadingUploads(share, found)), events[1], Go(s, pid, CheckingReferences(job)),
               events[2], t);
  }

  /** A share whose object is named by a file that was not inspected is left as it is. */
  lemma ForeignReferenceStops(s: State, pid: Pid, job: Cleanup, f: FileId, g: FileId)
    requires pid in s.procs && s.procs[pid] == CheckingReferences(job) && job.target.WholeShare?
    requires g in job.target.files && f in s.files && f !in job.target.files
    requires s.files[f].key == job.target.files[g].key
    ensures Step(s, ReferencesChecked(pid)) == Some(End(s, pid))
  {
  }

  lemma NoForeignReference(s: State, share: ShareId)
    requires Inv(s)
    ensures forall f, g :: f in s.files && f !in FilesOf(s, share) && g in FilesOf(s, share) ==>
              s.files[f].key != s.files[g].key
  {
    forall f, g | f in s.files && g in s.files && s.files[f].key == s.files[g].key
      ensures f == g
    {
      FilesAreDistinct(s, f, g);
    }
  }

  /** The last two calls: the objects of the inspected files, then the rows and the share. */
  lemma ShareRowsGo(s: State, u: State, pid: Pid, share: ShareId, sessions: seq<Session>, job: Cleanup)
    returns (events: seq<Event>, t: State)
    requires ListsUploadsOf(s, share, sessions)
    requires job == Cleanup(Inspect(s, sessions), WholeShare(share, FoundIn(s, share)))
    requires u == s.(multiparts := u.multiparts, procs := s.procs[pid := DeletingObjects(job)]) && pid !in s.procs
    ensures events == [ObjectsDeleted(pid), RowsDeleted(pid)] && Run(u, events) == Some(t)
    ensures ShareIsGone(s, t, share) && t.procs == s.procs
  {
    var a := ObjectsOfShareGo(s, u, pid, share, job);
    t := RowsOfShareGo(s, a, pid, share, sessions, job);
    TwoSteps(u, ObjectsDeleted(pid), a, RowsDeleted(pid), t);
    events := [ObjectsDeleted(pid), RowsDeleted(pid)];
  }

  lemma ObjectsOfShareGo(s: State, u: State, pid: Pid, share: ShareId, job: Cleanup) returns (a: State)
    requires job.target == WholeShare(share, FoundIn(s, share))
    requires u == s.(multiparts := u.multiparts, procs := s.procs[pid := DeletingObjects(job)])
    ensures Step(u, ObjectsDeleted(pid)) == Some(a)
    ensures a == u.(objects := a.objects, retired := a.retired, procs := s.procs[pid := DeletingRows(job)])
    ensures forall k :: k in a.objects <==> k in s.objects && !NamedIn(s, share, k)
    ensures forall k :: k in a.objects ==> a.objects[k] == s.objects[k]
  {
    a := OnObjectsDeleted(u, pid).value;
    KeysOfShare(s, share);
    Repeated(s.procs, pid, DeletingObjects(job), DeletingRows(job));
  }

  lemma KeysOfShare(s: State, share: ShareId)
    ensures var found := FoundIn(s, share);
            forall k :: k in (set f | f in found :: found[f].key) <==> NamedIn(s, share, k)
  {
    var found := FoundIn(s, share);
    forall k
      ensures k in (set f | f in found :: found[f].key) <==> NamedIn(s, share, k)
    {
      if k in (set f | f in found :: found[f].key) {
        var f :| f in found && found[f].key == k;
        assert f in s.files && s.files[f].share == share && s.files[f].key == k;
      }
      if NamedIn(s, share, k) {
        var f :| f in s.files && s.files[f].share == share && s.files[f].key == k;
        assert f in found && found[f].key == k;
      }
    }
  }

  lemma InspectedAreListed(s: State, sessions: seq<Session>)
    requires forall u :: u in sessions ==> u in s.uploads
    ensures forall u :: u in sessions <==> u in (set p | p in Inspect(s, sessions) :: p.0)
  {
    forall u | u in sessions
      ensures u in (set p | p in Inspect(s, sessions) :: p.0)
    {
      var i :| 0 <= i < |sessions| && sessions[i] == u;
      assert Inspect(s, sessions)[i] in Inspect(s, sessions);
    }
  }

  lemma RowsOfShareGo(s: State, a: State, pid: Pid, share: ShareId, sessions: seq<Session>, job: Cleanup)
    returns (t: State)
    requires ListsUploadsOf(s, share, sessions)
    requires job == Cleanup(Inspect(s, sessions), WholeShare(share, FoundIn(s, share)))
    requires a == s.(multiparts := a.multiparts, objects := a.objects, retired := a.retired,
                     procs := s.procs[pid := DeletingRows(job)]) && pid !in s.procs
    ensures Step(a, RowsDeleted(pid)) == Some(t)
    ensures && share !in t.shares
            && (forall x :: x in s.shares && x != share ==> x in t.shares && t.shares[x] == s.shares[x])
            && (forall u :: u in t.uploads <==> u in s.uploads && s.uploads[u].share != share)
            && (forall u :: u in t.uploads ==> t.uploads[u] == s.uploads[u])
            && (forall f :: f in t.files <==> f in s.files && s.files[f].share != share)
            && (forall f :: f in t.files ==> t.files[f] == s.files[f])
            && t.objects == a.objects && t.procs == s.procs
  {
    t := OnRowsDeleted(a, pid).value;
    InspectedAreListed(s, sessions);
    Repeated(s.procs, pid, DeletingRows(job), DeletingRows(job));
  }

  /**
   * Taking a share down, from every reachable state and undisturbed, when it fits one batch and none of
   * its uploads has an object that no files row holds: the share is gone with everything in it, and
   * nothing of any other share is touched.
   */
  lemma ShareIsTakenDown(s: State, pid: Pid, share: ShareId, sessions: seq<Session>)
    returns (events: seq<Event>, t: State)
    requires Inv(s) && pid !in s.procs && ListsUploadsOf(s, share, sessions)
    requires |FilesOf(s, share)| <= SHARE_FILE_BATCH_SIZE && |sessions| <= SHARE_UPLOAD_BATCH_SIZE
    requires forall u :: u in sessions ==> Settled(s, s.uploads[u].key)
    ensures Run(s, events) == Some(t) && ShareIsGone(s, t, share) && t.procs == s.procs
  {
    var reading, a, job := ShareIsRead(s, pid, share, sessions);
    var b := a;
    var retiring: seq<Event> := [];
    if |job.ups| > 0 {
      forall j | 0 <= j < |job.ups|
        ensures Settled(a, job.ups[j].1.key)
      {
        assert sessions[j] in sessions;
      }
      retiring, b := RetireAll(a, pid, job, 0);
      Repeated(s.procs, pid, Retiring(job, 0, AbortCall), DeletingObjects(job));
    }
    var deleting;
    deleting, t := ShareRowsGo(s, b, pid, share, sessions, job);
    RunsJoin(a, retiring, b, deleting, t);
    RunsJoin(s, reading, a, retiring + deleting, t);
    events := reading + (retiring + deleting);
  }
}
