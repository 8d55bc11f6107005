/**
 * The upload ledger (src/services/files.ts, src/services/links.ts): rows of the `files` and
 * `links` tables as maps, the SQL statements that change them as functions, and the SQL
 * aggregates as sums over a finite map.
 */
module Ledger {
  import opened Common

  datatype Status = Uploading | Complete | Aborted | Expired | Missing | Deleted

  datatype Kind = Tus | Direct

  datatype FileRow = FileRow(
    link: nat,
    kind: Kind,
    status: Status,
    declared: Option<nat>,
    reserved: nat,
    size: Option<nat>,
    sha256: Option<string>,
    createdAt: nat,
    completedAt: Option<nat>,
    deletedAt: Option<nat>)

  datatype Link = Link(
    expiresAt: Option<nat>,
    revokedAt: Option<nat>,
    maxFileBytes: Option<nat>,
    maxFiles: Option<nat>,
    maxTotalBytes: Option<nat>)

  type Files = map<nat, FileRow>
  type Links = map<nat, Link>

  datatype LinkState = Active | LinkExpired | Revoked

  function StateOf(l: Link, now: nat): LinkState {
    if l.revokedAt.Some? then Revoked
    else if l.expiresAt.Some? && l.expiresAt.value <= now then LinkExpired
    else Active
  }

  // ---- Aggregates -------------------------------------------------------------------------------------

  /** The four columns of `linkUsage`. */
  datatype Measure = FileCount | UsedBytes | ReservedBytes | UploadingCount

  /** What one row adds to one column of one link's usage. */
  function Amount(m: Measure, l: nat, r: FileRow): nat {
    if r.link != l then 0
    else match m
      case FileCount => if r.status.Complete? then 1 else 0
      case UsedBytes => if r.status.Complete? then r.size.GetOr(0) else 0
      case ReservedBytes => if r.status.Uploading? then r.reserved else 0
      case UploadingCount => if r.status.Uploading? then 1 else 0
  }

  ghost function AnyRow(files: Files): (id: nat)
    requires files != map[]
    ensures id in files
  {
    var id :| id in files; id
  }

  lemma Smaller(files: Files, id: nat)
    requires id in files
    ensures |files - {id}| < |files|
  {
    assert (files - {id}).Keys == files.Keys - {id};
  }

  /** SUM or COUNT over the whole table. */
  ghost function Total(m: Measure, l: nat, files: Files): nat
    decreases |files|
  {
    if files == map[] then 0
    else
      var id := AnyRow(files);
      Smaller(files, id);
      Amount(m, l, files[id]) + Total(m, l, files - {id})
  }

  /** The sum does not depend on the order in which rows are visited. */
  lemma {:induction false} TotalSplit(m: Measure, l: nat, files: Files, id: nat)
    requires id in files
    ensures Total(m, l, files) == Amount(m, l, files[id]) + Total(m, l, files - {id})
    decreases |files|
  {
    var first := AnyRow(files);
    if first != id {
      Smaller(files, first);
      Smaller(files, id);
      TotalSplit(m, l, files - {first}, id);
      TotalSplit(m, l, files - {id}, first);
      assert files - {first} - {id} == files - {id} - {first};
    }
  }

  /** Writing one row changes the sum by the difference of that row alone. */
  lemma TotalWrite(m: Measure, l: nat, files: Files, id: nat, r: FileRow)
    ensures Total(m, l, files[id := r]) + (if id in files then Amount(m, l, files[id]) else 0)
            == Total(m, l, files) + Amount(m, l, r)
  {
    TotalSplit(m, l, files[id := r], id);
    if id in files {
      TotalSplit(m, l, files, id);
      assert files[id := r] - {id} == files - {id};
    } else {
      assert files[id := r] - {id} == files;
    }
  }

  datatype Usage = Usage(fileCount: nat, usedBytes: nat, reservedBytes: nat, uploadingCount: nat)

  ghost function LinkUsage(files: Files, l: nat): Usage {
    Usage(Total(FileCount, l, files), Total(UsedBytes, l, files),
          Total(ReservedBytes, l, files), Total(UploadingCount, l, files))
  }

  // ---- Admission --------------------------------------------------------------------------------------

  datatype Limits = Limits(maxFileBytes: nat, maxFiles: Option<nat>, maxTotalBytes: Option<nat>)

  function EffectiveLimits(cfgMaxFileBytes: nat, l: Link): Limits {
    Limits(Min(cfgMaxFileBytes, l.maxFileBytes.GetOr(cfgMaxFileBytes)), l.maxFiles, l.maxTotalBytes)
  }

  /** The largest integer a JavaScript number holds exactly. */
  const MAX_SAFE_INTEGER: int := 0x1F_FFFF_FFFF_FFFF

  datatype Refusal =
    | InvalidSize
    | TooManyFiles(limit: nat)
    | FileTooLarge(limit: nat)
    | QuotaExceeded(limit: nat)

  function ValidSize(declared: Option<int>): bool {
    declared.Some? ==> 0 <= declared.value <= MAX_SAFE_INTEGER
  }

  /** The checks of `reserveUpload`, in the order it makes them; the bytes to reserve when they pass. */
  function Admit(lim: Limits, u: Usage, declared: Option<int>): (r: Result<nat, Refusal>)
    ensures r.Ok? ==> ValidSize(declared)
  {
    if !ValidSize(declared) then Err(InvalidSize)
    else if lim.maxFiles.Some? && u.fileCount + u.uploadingCount >= lim.maxFiles.value then
      Err(TooManyFiles(lim.maxFiles.value))
    else if declared.Some? && declared.value > lim.maxFileBytes then Err(FileTooLarge(lim.maxFileBytes))
    else if lim.maxTotalBytes.Some? then
      var remaining: int := lim.maxTotalBytes.value - u.usedBytes - u.reservedBytes;
      if declared.Some? && declared.value > remaining then Err(QuotaExceeded(lim.maxTotalBytes.value))
      else if remaining <= 0 then Err(QuotaExceeded(lim.maxTotalBytes.value))
      else Ok(declared.GetOr(Min(lim.maxFileBytes, remaining)))
    else Ok(declared.GetOr(lim.maxFileBytes))
  }

  /** Whether one more file of `bytes` bytes keeps a link inside its limits. */
  predicate Fits(lim: Limits, u: Usage, bytes: nat) {
    && bytes <= lim.maxFileBytes
    && (lim.maxFiles.Some? ==> u.fileCount + u.uploadingCount + 1 <= lim.maxFiles.value)
    && (lim.maxTotalBytes.Some? ==> u.usedBytes + u.reservedBytes + bytes <= lim.maxTotalBytes.value)
  }

  /** A quota with nothing left admits no upload at all, not even an empty one. */
  predicate Exhausted(lim: Limits, u: Usage) {
    lim.maxTotalBytes.Some? && lim.maxTotalBytes.value <= u.usedBytes + u.reservedBytes
  }

  /**
   * Admission is exact. A declared size is admitted, and reserved as it is, exactly when it fits
   * and the quota is not exhausted; an unknown size is admitted exactly when some size could be,
   * and then the largest size that fits is reserved.
   */
  lemma AdmitExact(lim: Limits, u: Usage, declared: Option<int>)
    requires ValidSize(declared)
    ensures declared.Some? ==>
              (Admit(lim, u, declared) == Ok(declared.value)
               <==> Fits(lim, u, declared.value) && !Exhausted(lim, u))
    ensures declared.Some? ==> (Admit(lim, u, declared).Ok? <==> Admit(lim, u, declared) == Ok(declared.value))
    ensures declared.None? ==> (Admit(lim, u, declared).Ok? <==> Fits(lim, u, 0) && !Exhausted(lim, u))
    ensures declared.None? && Admit(lim, u, declared).Ok? ==>
              Fits(lim, u, Admit(lim, u, declared).value)
              && forall bytes: nat :: Fits(lim, u, bytes) ==> bytes <= Admit(lim, u, declared).value
  {
  }

  // ---- Statements on the files table ------------------------------------------------------------------

  function NewRow(l: nat, kind: Kind, declared: Option<nat>, reserved: nat, now: nat): FileRow {
    FileRow(l, kind, Uploading, declared, reserved, None, None, now, None, None)
  }

  /** The declared size as it is stored, once it has passed validation. */
  function Stored(declared: Option<int>): Option<nat>
    requires ValidSize(declared)
  {
    if declared.Some? then Some(declared.value) else None
  }

  /** `reserveUpload`: the row is inserted only when every limit holds. */
  ghost function ReserveUpload(files: Files, lim: Limits, l: nat, kind: Kind, declared: Option<int>, id: nat, now: nat)
    : (Files, Result<nat, Refusal>)
  {
    var r := Admit(lim, LinkUsage(files, l), declared);
    if r.Ok? then (files[id := NewRow(l, kind, Stored(declared), r.value, now)], r) else (files, r)
  }

  function CompleteUpload(files: Files, id: nat, size: nat, sha256: Option<string>, now: nat): (Files, bool) {
    if id in files && files[id].status.Uploading? then
      var hash := if sha256.Some? then sha256 else files[id].sha256;
      (files[id := files[id].(status := Complete, size := Some(size), sha256 := hash, reserved := 0,
                              completedAt := Some(now))], true)
    else (files, false)
  }

  function FailUpload(files: Files, id: nat, status: Status): (Files, bool)
    requires status.Aborted? || status.Expired?
  {
    if id in files && files[id].status.Uploading? then
      (files[id := files[id].(status := status, reserved := 0)], true)
    else (files, false)
  }

  function MarkMissing(files: Files, id: nat): Files {
    if id in files && files[id].status.Complete? then files[id := files[id].(status := Missing)] else files
  }

  function MarkDeleted(files: Files, id: nat, now: nat): (Files, bool) {
    if id in files && (files[id].status.Complete? || files[id].status.Missing?) then
      (files[id := files[id].(status := Deleted, reserved := 0, deletedAt := Some(now))], true)
    else (files, false)
  }

  function RevokeLink(links: Links, l: nat, now: nat): (Links, bool) {
    if l in links && links[l].revokedAt.None? then (links[l := links[l].(revokedAt := Some(now))], true)
    else (links, false)
  }

  // ---- Read-only queries ------------------------------------------------------------------------------

  function StaleUploads(files: Files, cutoff: int): set<nat> {
    set id | id in files && files[id].status.Uploading? && files[id].createdAt < cutoff
  }

  function UploadingForLink(files: Files, l: nat): set<nat> {
    set id | id in files && files[id].status.Uploading? && files[id].link == l
  }

  function CompleteFiles(files: Files): set<nat> {
    set id | id in files && files[id].status.Complete?
  }

  predicate Live(files: Files, id: nat) {
    id in files && (files[id].status.Uploading? || files[id].status.Complete?)
  }

  function LiveStorageKeys(files: Files): set<nat> {
    set id | id in files && Live(files, id)
  }

  // ---- The life of a row ------------------------------------------------------------------------------

  /** One move of a row's status; staying put is not a move. */
  predicate Moves(a: Status, b: Status) {
    match a
    case Uploading => b.Complete? || b.Aborted? || b.Expired?
    case Complete => b.Missing? || b.Deleted?
    case Missing => b.Deleted?
    case _ => false
  }

  /** Zero or more moves. */
  predicate Reaches(a: Status, b: Status) {
    || a == b
    || Moves(a, b)
    || (a.Uploading? && (b.Missing? || b.Deleted?))
  }

  predicate ReachedComplete(s: Status) {
    s.Complete? || s.Missing? || s.Deleted?
  }

  /** What every stored row satisfies. */
  predicate RowShape(r: FileRow) {
    && (!r.status.Uploading? ==> r.reserved == 0)
    && (r.size.Some? <==> ReachedComplete(r.status))
    && (r.completedAt.Some? <==> ReachedComplete(r.status))
    && (r.deletedAt.Some? <==> r.status.Deleted?)
  }

  /** How a row may differ between two moments of a run. */
  predicate Evolves(a: FileRow, b: FileRow) {
    && a.link == b.link && a.kind == b.kind && a.declared == b.declared && a.createdAt == b.createdAt
    && Reaches(a.status, b.status)
    && (b.status == a.status ==> a == b)
    && (ReachedComplete(a.status) ==> b.size == a.size && b.completedAt == a.completedAt && b.sha256 == a.sha256)
  }

  predicate TableEvolves(a: Files, b: Files) {
    forall id :: id in a ==> id in b && Evolves(a[id], b[id])
  }

  lemma EvolvesTransitive(a: FileRow, b: FileRow, c: FileRow)
    requires Evolves(a, b) && Evolves(b, c)
    ensures Evolves(a, c)
  {
  }

  lemma TableEvolvesTransitive(a: Files, b: Files, c: Files)
    requires TableEvolves(a, b) && TableEvolves(b, c)
    ensures TableEvolves(a, c)
  {
    forall id | id in a ensures id in c && Evolves(a[id], c[id]) {
      assert id in b;
      EvolvesTransitive(a[id], b[id], c[id]);
    }
  }

  // ---- Quota ------------------------------------------------------------------------------------------

  /** The link's usage respects its own limits. */
  ghost predicate WithinQuota(files: Files, l: nat, link: Link) {
    && (link.maxTotalBytes.Some? ==>
          Total(UsedBytes, l, files) + Total(ReservedBytes, l, files) <= link.maxTotalBytes.value)
    && (link.maxFiles.Some? ==>
          Total(FileCount, l, files) + Total(UploadingCount, l, files) <= link.maxFiles.value)
  }

  lemma ReserveKeepsQuota(files: Files, cfgMax: nat, links: Links, l: nat, kind: Kind, declared: Option<int>,
                          id: nat, now: nat, other: nat)
    requires id !in files && l in links && other in links
    requires WithinQuota(files, other, links[other])
    ensures WithinQuota(ReserveUpload(files, EffectiveLimits(cfgMax, links[l]), l, kind, declared, id, now).0, other,
                        links[other])
  {
    var lim := EffectiveLimits(cfgMax, links[l]);
    var (files', r) := ReserveUpload(files, lim, l, kind, declared, id, now);
    if r.Ok? {
      AdmitExact(lim, LinkUsage(files, l), declared);
      TotalWrite(UsedBytes, other, files, id, files'[id]);
      TotalWrite(ReservedBytes, other, files, id, files'[id]);
      TotalWrite(FileCount, other, files, id, files'[id]);
      TotalWrite(UploadingCount, other, files, id, files'[id]);
    }
  }

  /** The quota a row takes: what it reserves while it uploads, then what it stores. */
  function Charge(r: FileRow): nat {
    if r.status.Uploading? then r.reserved else if r.status.Complete? then r.size.GetOr(0) else 0
  }

  /** A row that stays with its link, takes no more than before and is not revived keeps every quota. */
  lemma WriteKeepsQuota(files: Files, id: nat, r: FileRow, l: nat, link: Link)
    requires id in files && r.link == files[id].link && Charge(r) <= Charge(files[id])
    requires r.status.Uploading? || r.status.Complete? ==> files[id].status.Uploading? || files[id].status.Complete?
    requires WithinQuota(files, l, link)
    ensures WithinQuota(files[id := r], l, link)
  {
    TotalWrite(UsedBytes, l, files, id, r);
    TotalWrite(ReservedBytes, l, files, id, r);
    TotalWrite(FileCount, l, files, id, r);
    TotalWrite(UploadingCount, l, files, id, r);
  }
}
