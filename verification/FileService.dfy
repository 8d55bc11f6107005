/** The statements of src/services/files.ts and src/services/links.ts, each proved to do what module Ledger says of the rows. */
module FileService {
  import opened Common
  import opened Ledger
  import opened Database
  import L = Ledger

  /** The four aggregates, row by row and in whatever order the rows come. */
  method LinkUsage(db: FilesDb, l: nat) returns (u: Usage)
    ensures u == L.LinkUsage(db.files, l)
  {
    var count, used, reserved, uploading := 0, 0, 0, 0;
    var todo := db.files;
    while todo != map[]
      invariant count + Total(FileCount, l, todo) == Total(FileCount, l, db.files)
      invariant used + Total(UsedBytes, l, todo) == Total(UsedBytes, l, db.files)
      invariant reserved + Total(ReservedBytes, l, todo) == Total(ReservedBytes, l, db.files)
      invariant uploading + Total(UploadingCount, l, todo) == Total(UploadingCount, l, db.files)
      decreases |todo|
    {
      var id :| id in todo;
      TotalSplit(FileCount, l, todo, id);
      TotalSplit(UsedBytes, l, todo, id);
      TotalSplit(ReservedBytes, l, todo, id);
      TotalSplit(UploadingCount, l, todo, id);
      Smaller(todo, id);
      var r := todo[id];
      if r.link == l {
        if r.status.Complete? {
          count, used := count + 1, used + r.size.GetOr(0);
        } else if r.status.Uploading? {
          reserved, uploading := reserved + r.reserved, uploading + 1;
        }
      }
      todo := todo - {id};
    }
    return Usage(count, used, reserved, uploading);
  }

  method ReserveUpload(db: FilesDb, cfgMax: nat, l: nat, kind: Kind, declared: Option<int>, id: nat, now: nat)
    returns (r: Result<nat, Refusal>)
    requires l in db.links
    modifies db`files
    ensures (db.files, r) == L.ReserveUpload(old(db.files), EffectiveLimits(cfgMax, db.links[l]), l, kind, declared,
                                             id, now)
  {
    var limits := EffectiveLimits(cfgMax, db.links[l]);
    if declared.Some? && (declared.value > MAX_SAFE_INTEGER || declared.value < 0) {
      return Err(InvalidSize);
    }
    var usage := LinkUsage(db, l);
    if limits.maxFiles.Some? && usage.fileCount + usage.uploadingCount >= limits.maxFiles.value {
      return Err(TooManyFiles(limits.maxFiles.value));
    }
    if declared.Some? && declared.value > limits.maxFileBytes {
      return Err(FileTooLarge(limits.maxFileBytes));
    }
    var maxBytes := limits.maxFileBytes;
    if limits.maxTotalBytes.Some? {
      var remaining: int := limits.maxTotalBytes.value - usage.usedBytes - usage.reservedBytes;
      if declared.Some? && declared.value > remaining {
        return Err(QuotaExceeded(limits.maxTotalBytes.value));
      }
      if remaining <= 0 {
        return Err(QuotaExceeded(limits.maxTotalBytes.value));
      }
      maxBytes := Min(maxBytes, remaining);
    }
    var reserved := if declared.Some? then declared.value else maxBytes;
    db.files := db.files[id := NewRow(l, kind, Stored(declared), reserved, now)];
    return Ok(reserved);
  }

  method CompleteUpload(db: FilesDb, id: nat, size: nat, sha256: Option<string>, now: nat) returns (changed: bool)
    modifies db`files
    ensures (db.files, changed) == L.CompleteUpload(old(db.files), id, size, sha256, now)
  {
    if id !in db.files || !db.files[id].status.Uploading? {
      return false;
    }
    var hash := if sha256.Some? then sha256 else db.files[id].sha256;
    db.files := db.files[id :=
      db.files[id].(status := Complete, size := Some(size), sha256 := hash, reserved := 0, completedAt := Some(now))];
    return true;
  }

  method FailUpload(db: FilesDb, id: nat, status: Status) returns (changed: bool)
    requires status.Aborted? || status.Expired?
    modifies db`files
    ensures (db.files, changed) == L.FailUpload(old(db.files), id, status)
  {
    if id !in db.files || !db.files[id].status.Uploading? {
      return false;
    }
    db.files := db.files[id := db.files[id].(status := status, reserved := 0)];
    return true;
  }

  method MarkMissing(db: FilesDb, id: nat)
    modifies db`files
    ensures db.files == L.MarkMissing(old(db.files), id)
  {
    if id in db.files && db.files[id].status.Complete? {
      db.files := db.files[id := db.files[id].(status := Missing)];
    }
  }

  method MarkDeleted(db: FilesDb, id: nat, now: nat) returns (changed: bool)
    modifies db`files
    ensures (db.files, changed) == L.MarkDeleted(old(db.files), id, now)
  {
    if id !in db.files || !(db.files[id].status.Complete? || db.files[id].status.Missing?) {
      return false;
    }
    db.files := db.files[id := db.files[id].(status := Deleted, reserved := 0, deletedAt := Some(now))];
    return true;
  }

  method RevokeLink(db: FilesDb, l: nat, now: nat) returns (changed: bool)
    modifies db`links
    ensures (db.links, changed) == L.RevokeLink(old(db.links), l, now)
  {
    if l !in db.links || db.links[l].revokedAt.Some? {
      return false;
    }
    db.links := db.links[l := db.links[l].(revokedAt := Some(now))];
    return true;
  }
}
