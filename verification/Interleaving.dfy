/**
 * Everything that may happen to the ledger and its storage, one step at a time. A step is the
 * code between two awaits of one request or of one housekeeping run, and any number of direct
 * uploads, tus uploads, link revocations, file deletions and cleanup runs interleave
 * (src/http/public.ts, src/http/tus.ts, src/http/admin.ts, src/services/cleanup.ts).
 *
 * Where an await hands control to the file system or to the tus library, the step that answers
 * it is given at least the freedom of the real one: more runs than the program has, never fewer.
 * What the tus library is relied on for is said at `TusEnabled`.
 */
module Interleaving {
  import opened Common
  import opened Ledger
  import opened Storage

  datatype Config = Config(maxFileBytes: nat, ttl: nat, sha256: seq<byte> -> string)

  /** Where a direct upload stands: `storage.put` streaming, `put` about to remove what it wrote,
      the catch block about to run, the final `storage.delete` about to run. */
  datatype DirectPhase = Streaming | Removing | Failing | Deleting

  /** `pending` has passed the limiter and waits for the object to be opened. */
  datatype DirectUpload = DirectUpload(maxBytes: nat, declared: Option<nat>, ready: bool, received: nat,
                                       pending: seq<byte>, phase: DirectPhase)

  /** An upload the tus library has created: the bytes it has taken, and whether it was terminated. */
  datatype TusUpload = TusUpload(offset: nat, removed: bool)

  /** A revocation walking through `all`, the uploads it listed: `todo` is not visited yet,
      `current` is being discarded. */
  datatype Revocation = Revocation(all: set<nat>, todo: set<nat>, current: Option<nat>)

  datatype Cleanup =
    | Expiring(todo: set<nat>, current: Option<nat>)
    | Verifying(todo: set<nat>)
    | Sweeping(live: set<nat>, started: nat, chosen: Option<Artefact>)

  datatype World = World(
    now: nat,
    used: set<nat>,                     // every upload id ever drawn or found in storage
    files: Files,
    links: Links,
    store: Store,
    direct: map<nat, DirectUpload>,
    tus: map<nat, TusUpload>,
    revocations: map<nat, Revocation>,
    deletions: set<nat>,                // rows marked deleted whose object is still to be removed
    cleanups: map<nat, Cleanup>,
    granted: map<nat, nat>,             // history: the bytes reserved for each upload
    taken: map<nat, seq<byte>>,         // history: what each upload has sent and the server has taken, in order
    answered: map<nat, nat>)            // history: uploads answered 201, with the size sent back

  datatype DirectStep =
    | Open                                     // the object is created, failing if it exists
    | Chunk(bytes: seq<byte>)                  // one chunk passes the limiter, or exceeds the limit
    | Break                                    // the request stream or the write fails
    | Cleared                                  // put has removed what it wrote
    | End(complete: bool, sha256: string)      // put resolves; the handler decides
    | Catch                                    // the handler's catch block marks the row aborted
    | Deleted                                  // its storage.delete is done

  datatype TusStep =
    | Store                                    // the library creates the object and its sidecar
    | Patch(bytes: seq<byte>)
    | Finish                                   // onUploadFinish
    | DropSidecar
    | Remove                                   // the library deletes a terminated upload
    | Terminated                               // the POST_TERMINATE hook

  datatype RevokeStep =
    | Revoke(l: nat)                           // the link is revoked and its uploads are listed
    | Visit(id: nat)                           // the loop takes one of them
    | Discard                                  // discardUploadData
    | Abort                                    // failUpload
    | Return

  datatype CleanupStep =
    | Begin                                    // stale uploads are listed
    | Take(id: nat)
    | Drop
    | Expire
    | ListComplete                             // second pass
    | Verify(id: nat, absent: bool)
    | Snapshot                                 // live keys and cutoff of the orphan sweep
    | Stat(a: Artefact)
    | Rm
    | Report

  datatype Event =
    | Tick(ms: nat)
    | IssueLink(l: nat, link: Link)
    | Reserve(l: nat, kind: Kind, declared: Option<int>, id: nat)
    | DirectEvent(id: nat, d: DirectStep)
    | TusEvent(id: nat, t: TusStep)
    | RevokeEvent(r: nat, v: RevokeStep)
    | DeleteRow(id: nat)
    | DeleteObject(id: nat)
    | CleanupEvent(c: nat, k: CleanupStep)

  // ---- When a step can happen -------------------------------------------------------------------------

  predicate DirectEnabled(w: World, id: nat, d: DirectStep) {
    && id in w.direct
    && match d
       case Open => w.direct[id].phase.Streaming? && !w.direct[id].ready
       case Chunk(_) => w.direct[id].phase.Streaming?
       case Break => w.direct[id].phase.Streaming?
       case Cleared => w.direct[id].phase.Removing?
       case End(_, _) => w.direct[id].phase.Streaming? && w.direct[id].ready
       case Catch => w.direct[id].phase.Failing?
       case Deleted => w.direct[id].phase.Deleting?
  }

  /**
   * The library creates an upload once, takes no more bytes than were declared, reports it
   * finished only with all of them, and does not terminate a finished one
   * (`disableTerminationForFinishedUploads`). Bytes may still arrive for an object that is gone.
   */
  predicate TusEnabled(w: World, id: nat, t: TusStep) {
    && id in w.files && w.files[id].kind.Tus?
    && var size := w.files[id].declared.GetOr(0);
       match t
       case Store => id !in w.tus
       case Patch(bytes) => id in w.tus && !w.tus[id].removed && w.tus[id].offset + |bytes| <= size
       case Finish => id in w.tus && !w.tus[id].removed && w.tus[id].offset == size
       case DropSidecar => true
       case Remove => id in w.tus && !w.tus[id].removed && w.tus[id].offset < size
       case Terminated => id in w.tus && w.tus[id].removed
  }

  predicate RevokeEnabled(w: World, r: nat, v: RevokeStep) {
    match v
    case Revoke(l) => r !in w.revocations && l in w.links
    case Visit(id) => r in w.revocations && w.revocations[r].current.None? && id in w.revocations[r].todo
    case Discard => r in w.revocations && w.revocations[r].current.Some?
    case Abort => r in w.revocations && w.revocations[r].current.Some?
    case Return => r in w.revocations && w.revocations[r].current.None? && w.revocations[r].todo == {}
  }

  predicate CleanupEnabled(w: World, c: nat, k: CleanupStep) {
    if k.Begin? then c !in w.cleanups
    else
      && c in w.cleanups
      && var p := w.cleanups[c];
         match k
         case Begin => false
         case Take(id) => p.Expiring? && p.current.None? && id in p.todo
         case Drop => p.Expiring? && p.current.Some?
         case Expire => p.Expiring? && p.current.Some?
         case ListComplete => p.Expiring? && p.current.None? && p.todo == {}
         case Verify(id, _) => p.Verifying? && id in p.todo
         // straight from the first pass when the caller asked not to verify files
         case Snapshot => !p.Sweeping? && p.todo == {} && (p.Expiring? ==> p.current.None?)
         case Stat(_) => p.Sweeping? && p.chosen.None?
         case Rm => p.Sweeping? && p.chosen.Some?
         case Report => p.Sweeping? && p.chosen.None?
  }

  predicate Enabled(w: World, e: Event) {
    match e
    case Tick(_) => true
    case IssueLink(l, link) => l !in w.links && link.revokedAt.None?
    // a tus request had its token checked when it came in, which may be some steps ago
    case Reserve(l, kind, declared, id) =>
      && l in w.links && id !in w.used
      && (kind.Direct? ==> StateOf(w.links[l], w.now).Active?)
      && (kind.Tus? ==> declared.Some?)
    case DirectEvent(id, d) => DirectEnabled(w, id, d)
    case TusEvent(id, t) => TusEnabled(w, id, t)
    case RevokeEvent(r, v) => RevokeEnabled(w, r, v)
    case DeleteRow(_) => true
    case DeleteObject(id) => id in w.deletions
    case CleanupEvent(c, k) => CleanupEnabled(w, c, k)
  }

  // ---- The statement a step runs on the files table ---------------------------------------------------

  datatype Statement =
    | Keep
    | SetComplete(id: nat, size: nat, sha256: Option<string>)
    | SetFailed(id: nat, status: Status)
    | SetMissing(id: nat)
    | SetDeleted(id: nat)

  predicate Proper(s: Statement) {
    s.SetFailed? ==> s.status.Aborted? || s.status.Expired?
  }

  function Execute(files: Files, s: Statement, now: nat): Files
    requires Proper(s)
  {
    match s
    case Keep => files
    case SetComplete(id, size, sha256) => CompleteUpload(files, id, size, sha256, now).0
    case SetFailed(id, status) => FailUpload(files, id, status).0
    case SetMissing(id) => MarkMissing(files, id)
    case SetDeleted(id) => MarkDeleted(files, id, now).0
  }

  /** The checks of the direct handler once `put` has resolved. */
  predicate Accepted(d: DirectUpload, complete: bool) {
    complete && (d.declared.Some? ==> d.received == d.declared.value)
  }

  function StatementOf(w: World, e: Event): (s: Statement)
    requires Enabled(w, e)
    ensures Proper(s)
  {
    match e
    case DirectEvent(id, d) =>
      if d.End? && Accepted(w.direct[id], d.complete) then SetComplete(id, w.direct[id].received, Some(d.sha256))
      else if d.Catch? then SetFailed(id, Aborted)
      else Keep
    case TusEvent(id, t) =>
      // the library calls the hook with offset == size, and size is what was declared
      if t.Finish? then SetComplete(id, w.files[id].declared.GetOr(0), None)
      else if t.Terminated? then SetFailed(id, Aborted)
      else Keep
    case RevokeEvent(r, v) => if v.Abort? then SetFailed(w.revocations[r].current.value, Aborted) else Keep
    case DeleteRow(id) => SetDeleted(id)
    case CleanupEvent(c, k) =>
      if k.Expire? then SetFailed(w.cleanups[c].current.value, Expired)
      else if k.Verify? && k.absent then SetMissing(k.id)
      else Keep
    case _ => Keep
  }

  // ---- The call a step makes to storage ---------------------------------------------------------------

  datatype Access =
    | NoAccess
    | Create(entries: set<Artefact>)
    | Place(id: nat, bytes: seq<byte>)
    | Write(id: nat, bytes: seq<byte>)
    | Unlink(entries: set<Artefact>)

  /** Bytes written to an object no longer in the directory go nowhere. */
  function Perform(store: Store, a: Access, now: nat): Store {
    match a
    case NoAccess => store
    case Create(entries) => (map x | x in entries :: Blob([], now)) + store
    case Place(id, bytes) => store[Data(id) := Blob(bytes, now)]
    case Write(id, bytes) =>
      if Data(id) in store then store[Data(id) := Blob(store[Data(id)].content + bytes, now)] else store
    case Unlink(entries) => store - entries
  }

  /** The chunk fits what is left of the reservation. */
  predicate Passes(d: DirectUpload, bytes: seq<byte>) {
    d.received + |bytes| <= d.maxBytes
  }

  function Both(id: nat): set<Artefact> {
    {Data(id), Sidecar(id)}
  }

  function AccessOf(w: World, e: Event): Access
    requires Enabled(w, e)
  {
    match e
    case DirectEvent(id, d) =>
      (match d
       case Open => if Data(id) in w.store then NoAccess else Place(id, w.direct[id].pending)
       case Chunk(bytes) => if Passes(w.direct[id], bytes) && w.direct[id].ready then Write(id, bytes) else NoAccess
       case Cleared => Unlink({Data(id)})
       case Deleted => Unlink(Both(id))
       case _ => NoAccess)
    case TusEvent(id, t) =>
      (match t
       case Store => Create(Both(id))
       case Patch(bytes) => Write(id, bytes)
       case DropSidecar => Unlink({Sidecar(id)})
       case Remove => Unlink(Both(id))
       case _ => NoAccess)
    case RevokeEvent(r, v) => if v.Discard? then Unlink(Both(w.revocations[r].current.value)) else NoAccess
    case DeleteObject(id) => Unlink(Both(id))
    case CleanupEvent(c, k) =>
      if k.Drop? then Unlink(Both(w.cleanups[c].current.value))
      else if k.Rm? then Unlink({w.cleanups[c].chosen.value})
      else NoAccess
    case _ => NoAccess
  }

  // ---- The state of the processes ---------------------------------------------------------------------

  function NextDirect(w: World, id: nat, d: DirectStep): map<nat, DirectUpload>
    requires DirectEnabled(w, id, d)
  {
    var u := w.direct[id];
    match d
    // an object already there makes the write fail, and put removes it
    case Open => if Data(id) in w.store then w.direct[id := u.(phase := Removing)]
                 else w.direct[id := u.(ready := true, pending := [])]
    case Chunk(bytes) =>
      if !Passes(u, bytes) then w.direct[id := u.(phase := Removing)]
      else w.direct[id := u.(received := u.received + |bytes|, pending := if u.ready then [] else u.pending + bytes)]
    case Break => w.direct[id := u.(phase := Removing)]
    case Cleared => w.direct[id := u.(phase := Failing)]
    case End(complete, _) => if Accepted(u, complete) then w.direct - {id} else w.direct[id := u.(phase := Failing)]
    case Catch => w.direct[id := u.(phase := Deleting)]
    case Deleted => w.direct - {id}
  }

  function NextTus(w: World, id: nat, t: TusStep): map<nat, TusUpload>
    requires TusEnabled(w, id, t)
  {
    match t
    case Store => w.tus[id := TusUpload(0, false)]
    case Patch(bytes) => w.tus[id := w.tus[id].(offset := w.tus[id].offset + |bytes|)]
    case Remove => w.tus[id := w.tus[id].(removed := true)]
    case Finish => w.tus
    case DropSidecar => w.tus
    case Terminated => w.tus
  }

  function NextRevocations(w: World, r: nat, v: RevokeStep): map<nat, Revocation>
    requires RevokeEnabled(w, r, v)
  {
    match v
    case Revoke(l) =>
      if RevokeLink(w.links, l, w.now).1 then
        var all := UploadingForLink(w.files, l);
        w.revocations[r := Revocation(all, all, None)]
      else w.revocations
    case Visit(id) => w.revocations[r := w.revocations[r].(todo := w.revocations[r].todo - {id}, current := Some(id))]
    case Discard => w.revocations
    case Abort => w.revocations[r := w.revocations[r].(current := None)]
    case Return => w.revocations - {r}
  }

  function NextCleanups(cfg: Config, w: World, c: nat, k: CleanupStep): map<nat, Cleanup>
    requires CleanupEnabled(w, c, k)
  {
    match k
    case Begin => w.cleanups[c := Expiring(StaleUploads(w.files, w.now - cfg.ttl), None)]
    case Take(id) => w.cleanups[c := w.cleanups[c].(todo := w.cleanups[c].todo - {id}, current := Some(id))]
    case Drop => w.cleanups
    case Expire => w.cleanups[c := w.cleanups[c].(current := None)]
    case ListComplete => w.cleanups[c := Verifying(CompleteFiles(w.files))]
    case Verify(id, _) => w.cleanups[c := Verifying(w.cleanups[c].todo - {id})]
    // live keys and cutoff are taken together, before the first await of the sweep
    case Snapshot => w.cleanups[c := Sweeping(LiveStorageKeys(w.files), w.now, None)]
    case Stat(a) =>
      var p := w.cleanups[c];
      if Orphan(w.store, p.live, p.started - cfg.ttl, a) then w.cleanups[c := p.(chosen := Some(a))] else w.cleanups
    case Rm => w.cleanups[c := w.cleanups[c].(chosen := None)]
    case Report => w.cleanups - {c}
  }

  // ---- One step ---------------------------------------------------------------------------------------

  /** `reserveUpload` and what its caller sets up around it. */
  ghost function NextReserve(cfg: Config, w: World, l: nat, kind: Kind, declared: Option<int>, id: nat): World
    requires l in w.links
  {
    var limits := EffectiveLimits(cfg.maxFileBytes, w.links[l]);
    var (files', r) := ReserveUpload(w.files, limits, l, kind, declared, id, w.now);
    if r.Err? then w
    else w.(
      files := files',
      used := w.used + {id},
      granted := w.granted[id := r.value],
      taken := w.taken[id := []],
      direct := if kind.Direct? then w.direct[id := DirectUpload(r.value, Stored(declared), false, 0, [], Streaming)]
      else w.direct)
  }

  function TakenOf(w: World, id: nat): seq<byte> {
    if id in w.taken then w.taken[id] else []
  }

  function NextTaken(w: World, e: Event): map<nat, seq<byte>>
    requires Enabled(w, e)
  {
    if e.DirectEvent? && e.d.Chunk? && Passes(w.direct[e.id], e.d.bytes) then
      w.taken[e.id := TakenOf(w, e.id) + e.d.bytes]
    else if e.TusEvent? && e.t.Patch? then w.taken[e.id := TakenOf(w, e.id) + e.t.bytes]
    else w.taken
  }

  /** 201 is answered whatever completeUpload returned. */
  function NextAnswered(w: World, e: Event): map<nat, nat>
    requires Enabled(w, e)
  {
    if e.DirectEvent? && StatementOf(w, e).SetComplete? then w.answered[e.id := w.direct[e.id].received] else w.answered
  }

  /** Statement, storage call and process update of one step. */
  function Act(cfg: Config, w: World, e: Event): World
    requires Enabled(w, e)
  {
    w.(files := Execute(w.files, StatementOf(w, e), w.now),
       store := Perform(w.store, AccessOf(w, e), w.now),
       links := if e.RevokeEvent? && e.v.Revoke? then RevokeLink(w.links, e.v.l, w.now).0 else w.links,
       direct := if e.DirectEvent? then NextDirect(w, e.id, e.d) else w.direct,
       tus := if e.TusEvent? then NextTus(w, e.id, e.t) else w.tus,
       revocations := if e.RevokeEvent? then NextRevocations(w, e.r, e.v) else w.revocations,
       deletions := NextDeletions(w, e),
       taken := NextTaken(w, e),
       cleanups := if e.CleanupEvent? then NextCleanups(cfg, w, e.c, e.k) else w.cleanups,
       answered := NextAnswered(w, e))
  }

  ghost function Next(cfg: Config, w: World, e: Event): World
    requires Enabled(w, e)
  {
    if e.Tick? then w.(now := w.now + e.ms)
    else if e.IssueLink? then w.(links := w.links[e.l := e.link])
    else if e.Reserve? then NextReserve(cfg, w, e.l, e.kind, e.declared, e.id)
    else Act(cfg, w, e)
  }

  function NextDeletions(w: World, e: Event): set<nat> {
    if e.DeleteRow? && MarkDeleted(w.files, e.id, w.now).1 then w.deletions + {e.id}
    else if e.DeleteObject? then w.deletions - {e.id}
    else w.deletions
  }

  /** The hash `put` resolves with is that of the bytes that passed its limiter. */
  predicate Hashed(cfg: Config, w: World, e: Event) {
    e.DirectEvent? && e.d.End? ==> e.d.sha256 == cfg.sha256(TakenOf(w, e.id))
  }

  // ---- Runs -------------------------------------------------------------------------------------------

  /** Nothing uploaded, nothing running; storage may hold entries left by an earlier life. */
  predicate Initial(w: World) {
    && w.files == map[] && w.links == map[] && w.direct == map[] && w.tus == map[] && w.revocations == map[]
    && w.deletions == {} && w.cleanups == map[] && w.granted == map[] && w.taken == map[] && w.answered == map[]
    && forall a :: a in w.store && Recognised(a) ==> a.id in w.used
  }

  ghost predicate StepAt(cfg: Config, ws: seq<World>, es: seq<Event>, i: int)
    requires |ws| == |es| + 1 && 0 <= i < |es|
  {
    Enabled(ws[i], es[i]) && Hashed(cfg, ws[i], es[i]) && ws[i + 1] == Next(cfg, ws[i], es[i])
  }

  /** `ws` are the states of a run whose steps are `es`. */
  ghost predicate Run(cfg: Config, ws: seq<World>, es: seq<Event>) {
    && |ws| == |es| + 1
    && Initial(ws[0])
    && forall i :: 0 <= i < |es| ==> StepAt(cfg, ws, es, i)
  }
}
