/**
 * The handlers and the housekeeping run from beginning to end, when nothing else touches the
 * same rows meanwhile: a direct upload (src/http/public.ts), a link revocation and a file
 * deletion (src/http/admin.ts), and `runCleanup` (src/services/cleanup.ts).
 */
module UploadServer {
  import opened Common
  import opened Ledger
  import opened Storage
  import FileService
  import opened Tables
  import opened Database
  import A = Auth
  import AuthService

  // ---- Direct uploads ---------------------------------------------------------------------------------

  datatype Response = Created(size: nat,
                              sha256: string) | TooLarge(refusal: Refusal) | OverLimit(maxBytes: nat) | Incomplete

  /** The upload ends with everything that was sent, as it was declared and within what was reserved. */
  predicate Succeeds(source: seq<seq<byte>>, broken: bool, complete: bool, declared: Option<int>, maxBytes: nat) {
    && |Flat(source)| <= maxBytes && !broken && complete
    && (declared.Some? ==> |Flat(source)| == declared.value)
  }

  /** The row of a finished upload: exactly what is stored. */
  predicate Finished(r: FileRow, content: seq<byte>, reserved: nat, declared: Option<int>,
                     sha256: seq<byte> -> string) {
    && r.status.Complete? && r.size == Some(|content|) && r.sha256 == Some(sha256(content)) && r.reserved == 0
    && |content| <= reserved && (declared.Some? ==> |content| == declared.value)
  }

  /**
   * `direct`. The body arrives as `source`, whatever its chunks; `broken` says it then fails and
   * `complete` is `req.complete`. The new id is not in use.
   */
  method Direct(db: FilesDb, dir: Directory, cfgMax: nat, l: nat, id: nat, declared: Option<int>,
                source: seq<seq<byte>>, broken: bool, complete: bool, now: nat, sha256: seq<byte> -> string)
    returns (response: Response)
    requires l in db.links && id !in db.files && Data(id) !in dir.entries && Sidecar(id) !in dir.entries
    requires ValidSize(declared)
    modifies db`files, dir
    ensures var admitted := Admit(EffectiveLimits(cfgMax, db.links[l]), Ledger.LinkUsage(old(db.files), l), declared);
            && (admitted.Err? ==>
                  response == TooLarge(admitted.error) && db.files == old(db.files) && dir.entries == old(dir.entries))
            && (admitted.Ok? && Succeeds(source, broken, complete, declared, admitted.value) ==>
                  && response == Created(|Flat(source)|, sha256(Flat(source)))
                  && id in db.files && db.files - {id} == old(db.files)
                  && Finished(db.files[id], Flat(source), admitted.value, declared, sha256)
                  && dir.entries == old(dir.entries)[Data(id) := Blob(Flat(source), now)])
            && (admitted.Ok? && !Succeeds(source, broken, complete, declared, admitted.value) ==>
                  && (response.Incomplete? || response == OverLimit(admitted.value))
                  && id in db.files && db.files - {id} == old(db.files)
                  && db.files[id].status.Aborted? && db.files[id].reserved == 0
                  && dir.entries == old(dir.entries))
  {
    var reservation := FileService.ReserveUpload(db, cfgMax, l, Kind.Direct, declared, id, now);
    if reservation.Err? {
      return TooLarge(reservation.error);
    }
    var maxBytes := reservation.value;
    assert db.files - {id} == old(db.files);
    var result := dir.Put(id, source, broken, maxBytes, now, sha256);
    if result.Err? || !complete || (declared.Some? && result.value.size != declared.value) {
      var aborted := FileService.FailUpload(db, id, Aborted);
      dir.Delete(id);
      assert db.files - {id} == old(db.files);
      assert dir.entries == old(dir.entries);
      return if result == Err(LimitExceeded) then OverLimit(maxBytes) else Incomplete;
    }
    var completed := FileService.CompleteUpload(db, id, result.value.size, Some(result.value.sha256), now);
    assert db.files - {id} == old(db.files);
    return Created(result.value.size, result.value.sha256);
  }

  // ---- Revoking a link, deleting a file ---------------------------------------------------------------

  /** Each of these uploads is over, in the given state. */
  function FailAll(files: Files, ids: set<nat>, status: Status): Files {
    map id | id in files :: if id in ids
      && files[id].status.Uploading? then files[id].(status := status, reserved := 0) else files[id]
  }

  /** Nothing is left in storage of any of these uploads. */
  function DropAll(store: Store, ids: set<nat>): Store {
    map a | a in store && (a.Other? || a.id !in ids) :: store[a]
  }

  lemma NothingDone(files: Files, store: Store, status: Status)
    ensures FailAll(files, {}, status) == files && DropAll(store, {}) == store
  {
  }

  lemma FailOneMore(files: Files, ids: set<nat>, id: nat, status: Status)
    requires status.Aborted? || status.Expired?
    ensures var (files', changed) := FailUpload(FailAll(files, ids, status), id, status);
            && files' == FailAll(files, ids + {id}, status)
            && (id !in ids && id in files && files[id].status.Uploading? ==> changed)
  {
  }

  lemma DropOneMore(store: Store, ids: set<nat>, id: nat)
    ensures Without(DropAll(store, ids), id) == DropAll(store, ids + {id})
  {
  }

  /** `discardUploadData` for each upload, then its row; counts the rows that changed. */
  method DiscardUploads(db: FilesDb, dir: Directory, ids: set<nat>, status: Status) returns (changed: nat)
    requires status.Aborted? || status.Expired?
    requires forall id :: id in ids ==> id in db.files && db.files[id].status.Uploading?
    modifies db`files, dir
    ensures db.files == FailAll(old(db.files), ids, status)
    ensures dir.entries == DropAll(old(dir.entries), ids)
    ensures changed == |ids|
  {
    changed := 0;
    var todo := ids;
    ghost var done: set<nat> := {};
    NothingDone(db.files, dir.entries, status);
    while todo != {}
      invariant todo !! done && todo + done == ids && changed == |done|
      invariant db.files == FailAll(old(db.files), done, status)
      invariant dir.entries == DropAll(old(dir.entries), done)
      decreases todo
    {
      var id :| id in todo;
      todo := todo - {id};
      FailOneMore(old(db.files), done, id, status);
      DropOneMore(old(dir.entries), done, id);
      dir.Delete(id);
      var failed := FileService.FailUpload(db, id, status);
      if failed {
        changed := changed + 1;
      }
      done := done + {id};
    }
  }

  /** Revoking a link ends its uploads in progress, and no others, and removes their data. */
  method RevokeHandler(db: FilesDb, dir: Directory, l: nat, now: nat)
    modifies db, dir
    ensures l in db.links ==> db.links[l].revokedAt.Some?
    ensures db.links == Ledger.RevokeLink(old(db.links), l, now).0
    ensures Ledger.RevokeLink(old(db.links), l, now).1 ==>
              && UploadingForLink(db.files, l) == {}
              && db.files == FailAll(old(db.files), UploadingForLink(old(db.files), l), Aborted)
              && dir.entries == DropAll(old(dir.entries), UploadingForLink(old(db.files), l))
    ensures !Ledger.RevokeLink(old(db.links), l, now).1 ==> db.files == old(db.files) && dir.entries == old(dir.entries)
  {
    var revoked := FileService.RevokeLink(db, l, now);
    if revoked {
      var uploads := UploadingForLink(db.files, l);
      var changed := DiscardUploads(db, dir, uploads, Aborted);
    }
  }

  /** Deleting a file that was completed marks its row and removes its object; anything else is left alone. */
  method DeleteHandler(db: FilesDb, dir: Directory, id: nat, now: nat)
    modifies db`files, dir
    ensures db.files == Ledger.MarkDeleted(old(db.files), id, now).0
    ensures dir.entries == if Ledger.MarkDeleted(old(db.files), id, now).1 then Without(old(dir.entries), id)
            else old(dir.entries)
  {
    var deleted := FileService.MarkDeleted(db, id, now);
    if deleted {
      dir.Delete(id);
    }
  }

  // ---- Housekeeping -----------------------------------------------------------------------------------

  datatype Report = Report(staleUploads: nat, missingFiles: nat, orphans: nat, sessions: nat)

  function Lost(files: Files, store: Store): set<nat> {
    set id | id in files && files[id].status.Complete? && Data(id) !in store
  }

  function FlagLost(files: Files, ids: set<nat>): Files {
    map id | id in files :: if id in ids && files[id].status.Complete? then files[id].(status := Missing) else files[id]
  }

  datatype Cleaned = Cleaned(files: Files, store: Store, tables: Tables, report: Report)

  /** What one housekeeping run without interference and storage errors amounts to. */
  function CleanupOutcome(files: Files, store: Store, t: Tables, now: nat, ttl: nat, verify: bool): Cleaned {
    var stale := StaleUploads(files, now - ttl);
    var files1, store1 := FailAll(files, stale, Expired), DropAll(store, stale);
    var lost := if verify then Lost(files1, store1) else {};
    var files2 := FlagLost(files1, lost);
    var orphans := Orphans(store1, LiveStorageKeys(files2), now - ttl);
    var (t', sessions) := A.PurgeExpiredSessions(t, now);
    Cleaned(files2, store1 - orphans, t', Report(|stale|, |lost|, |orphans|, sessions))
  }

  /** Flags the complete files whose object has vanished. */
  method VerifyFiles(db: FilesDb, dir: Directory) returns (missing: nat)
    modifies db`files
    ensures db.files == FlagLost(old(db.files), Lost(old(db.files), dir.entries))
    ensures missing == |Lost(old(db.files), dir.entries)|
  {
    ghost var before := db.files;
    ghost var lost, flagged: set<nat> := Lost(before, dir.entries), {};
    var todo := CompleteFiles(db.files);
    missing := 0;
    NothingFlagged(before);
    while todo != {}
      invariant todo <= CompleteFiles(before) && todo !! flagged
      invariant flagged <= lost <= flagged + todo && missing == |flagged|
      invariant db.files == FlagLost(before, flagged)
      decreases todo
    {
      var id :| id in todo;
      var present := dir.Stat(id);
      todo := todo - {id};
      if !present {
        FlagOneMore(before, flagged, id);
        FileService.MarkMissing(db, id);
        flagged := flagged + {id};
        missing := missing + 1;
      }
    }
    assert flagged == lost;
  }

  lemma NothingFlagged(files: Files)
    ensures FlagLost(files, {}) == files
  {
  }

  lemma FlagOneMore(files: Files, ids: set<nat>, id: nat)
    ensures MarkMissing(FlagLost(files, ids), id) == FlagLost(files, ids + {id})
  {
  }

  method RunCleanup(db: FilesDb, dir: Directory, sessions: Db, now: nat, ttl: nat,
                    verify: bool) returns (report: Report)
    modifies db`files, dir, sessions
    ensures Cleaned(db.files, dir.entries, sessions.View(), report)
         == CleanupOutcome(old(db.files), old(dir.entries), old(sessions.View()), now, ttl, verify)
  {
    var stale := StaleUploads(db.files, now - ttl);
    var expired := DiscardUploads(db, dir, stale, Expired);
    var missing := 0;
    if verify {
      missing := VerifyFiles(db, dir);
    } else {
      NothingFlagged(db.files);
    }
    var removed := dir.CleanupOrphans(LiveStorageKeys(db.files), now, ttl);
    var purged := AuthService.PurgeExpiredSessions(sessions, now);
    return Report(expired, missing, removed, purged);
  }

  /** What a housekeeping run leaves behind. */
  predicate Tidy(files: Files, store: Store, t: Tables, now: nat, ttl: nat, verify: bool) {
    && StaleUploads(files, now - ttl) == {}
    && (verify ==> forall id :: id in files && files[id].status.Complete? ==> Data(id) in store)
    && (forall a :: a in store && Recognised(a) && store[a].mtime <= now - ttl ==> Live(files, a.id))
    && (forall s :: s in t.sessions ==> t.sessions[s].expiresAt > now)
  }

  /**
   * After a run no upload is older than the TTL, an object is behind every complete file, every
   * recognised entry last written before the cutoff belongs to a live row, and no session is expired.
   */
  lemma CleanupTidies(files: Files, store: Store, t: Tables, now: nat, ttl: nat, verify: bool)
    ensures var c := CleanupOutcome(files, store, t, now, ttl, verify); Tidy(c.files, c.store, c.tables, now, ttl, verify)
  {
  }

  /** A tidy system has nothing to clean: the run changes nothing and counts nothing. */
  lemma TidyNeedsNoCleanup(files: Files, store: Store, t: Tables, now: nat, ttl: nat, verify: bool)
    requires Tidy(files, store, t, now, ttl, verify)
    ensures CleanupOutcome(files, store, t, now, ttl, verify) == Cleaned(files, store, t, Report(0, 0, 0, 0))
  {
    NothingDone(files, store, Expired);
    NothingFlagged(files);
    assert verify ==> Lost(files, store) == {};
    assert Orphans(store, LiveStorageKeys(files), now - ttl) == {};
    assert A.ExpiredSessions(t, now) == {};
    assert t.sessions - {} == t.sessions;
    assert A.PurgeExpiredSessions(t, now).0.bindings == t.bindings;
  }

  /** A second run at the same instant reports zero in all four counters and changes nothing. */
  lemma SecondCleanupIsIdle(files: Files, store: Store, t: Tables, now: nat, ttl: nat, verify: bool)
    ensures var c := CleanupOutcome(files, store, t, now, ttl, verify);
            CleanupOutcome(c.files, c.store, c.tables, now, ttl, verify) == c.(report := Report(0, 0, 0, 0))
  {
    var c := CleanupOutcome(files, store, t, now, ttl, verify);
    CleanupTidies(files, store, t, now, ttl, verify);
    TidyNeedsNoCleanup(c.files, c.store, c.tables, now, ttl, verify);
  }
}
