/** When a complete row has its object, and what a 201 is worth, over whole runs. */
module InterleavingObjects {
  import opened Common
  import opened Ledger
  import opened Storage
  import opened Interleaving
  import opened InterleavingSafety
  import opened InterleavingRuns

  // ---- Where the bytes of an upload are ---------------------------------------------------------------

  /** The object of this id has not been created yet. */
  predicate Unopened(w: World, id: nat) {
    || id !in w.used
    || (id in w.direct && !w.direct[id].ready)
    || (id in w.files && w.files[id].kind.Tus? && id !in w.tus)
  }

  /** The object has been created, and nothing in the upload's own handler has given it up. */
  predicate Kept(w: World, id: nat) {
    && id in w.files
    && if w.files[id].kind.Tus? then id in w.tus && !w.tus[id].removed
       else w.files[id].status.Complete? || (id in w.direct && w.direct[id].phase.Streaming? && w.direct[id].ready)
  }

  /** How many bytes the upload's own bookkeeping says were taken so far. */
  function Counted(w: World, id: nat): nat
    requires Kept(w, id)
  {
    if w.files[id].kind.Tus? then w.tus[id].offset
    else if w.files[id].status.Complete? then w.files[id].size.GetOr(0)
    else w.direct[id].received
  }

  predicate ObjectOk(w: World, id: nat) {
    && (Unopened(w, id) ==> Data(id) !in w.store)
    && (Kept(w, id) ==> |TakenOf(w, id)| == Counted(w, id))
    && (Kept(w, id) && Data(id) in w.store ==> w.store[Data(id)].content == TakenOf(w, id))
    && (id in w.direct && !w.direct[id].ready ==>
          w.direct[id].pending == TakenOf(w, id) && |TakenOf(w, id)| == w.direct[id].received)
    && (id in w.files && w.files[id].kind.Tus? && id !in w.tus ==> TakenOf(w, id) == [])
    && (id in w.direct ==> id in w.files && w.files[id].kind.Direct? && !ReachedComplete(w.files[id].status))
    && (id in w.tus ==> id in w.files && w.files[id].kind.Tus?)
    && (id in w.files && w.files[id].kind.Tus? && ReachedComplete(w.files[id].status) ==>
          && id in w.tus && !w.tus[id].removed
          && w.tus[id].offset == w.files[id].declared.GetOr(0) && w.files[id].size == Some(w.tus[id].offset))
    && (id in w.deletions ==> id in w.files && w.files[id].status.Deleted?)
    && (id in w.files ==> id in w.used)
  }

  // ---- One step ---------------------------------------------------------------------------------------

  /** The step removes this id's object from storage. */
  predicate Removes(w: World, e: Event, id: nat) {
    && Enabled(w, e) && !e.Tick? && !e.IssueLink? && !e.Reserve?
    && AccessOf(w, e).Unlink? && Data(id) in AccessOf(w, e).entries && Data(id) in w.store
  }

  /**
   * How a step treats the object of `id`: the sizes keep matching; what is kept now was kept
   * before or has just been created; and an object that is kept stays unless the step removes it.
   */
  predicate Tracks(w: World, w': World, removed: bool, id: nat) {
    && ObjectOk(w', id)
    && (Unopened(w', id) ==> Unopened(w, id))
    && (Kept(w', id) ==> Kept(w, id) || (Unopened(w, id) && Data(id) in w'.store))
    && (Kept(w', id) && Kept(w, id) ==> (Data(id) in w'.store <==> Data(id) in w.store && !removed))
  }

  /** A row that somebody other than its own uploader may have failed, missed or deleted. */
  predicate RowAside(a: FileRow, b: FileRow) {
    || b == a
    || (a.status.Uploading? && (b.status.Aborted? || b.status.Expired?) && b == a.(status := b.status, reserved := 0))
    || (a.status.Complete? && b == a.(status := Missing))
    || ((a.status.Complete? || a.status.Missing?) && b.status.Deleted? && b.kind == a.kind && b.size == a.size
        && b.declared == a.declared && b.sha256 == a.sha256)
  }

  /** A step of somebody else's: the upload `id` itself does not advance. */
  predicate Aside(w: World, w': World, removed: bool, id: nat) {
    && (id in w'.used <==> id in w.used)
    && (id in w'.direct <==> id in w.direct) && (id in w.direct ==> w'.direct[id] == w.direct[id])
    && TakenOf(w', id) == TakenOf(w, id)
    && (id in w'.tus <==> id in w.tus) && (id in w.tus ==> w'.tus[id] == w.tus[id])
    && (id in w'.files <==> id in w.files) && (id in w.files ==> RowAside(w.files[id], w'.files[id]))
    && (Data(id) in w'.store <==> Data(id) in w.store && !removed)
    && (Data(id) in w'.store ==> w'.store[Data(id)] == w.store[Data(id)])
    && (id in w'.deletions ==> id in w.deletions || (id in w'.files && w'.files[id].status.Deleted?))
  }

  predicate ShapeOk(w: World, id: nat) {
    id in w.files ==> RowShape(w.files[id])
  }

  lemma AsideTracks(w: World, w': World, removed: bool, id: nat)
    requires ObjectOk(w, id) && Aside(w, w', removed, id)
    ensures Tracks(w, w', removed, id)
  {
  }

  lemma TickTracks(cfg: Config, w: World, e: Event, id: nat)
    requires Enabled(w, e) && ObjectOk(w, id) && (e.Tick? || e.IssueLink?)
    ensures Tracks(w, Next(cfg, w, e), Removes(w, e, id), id)
  {
  }

  lemma OtherReserveIsAside(cfg: Config, w: World, e: Event, id: nat)
    requires Enabled(w, e) && e.Reserve? && e.id != id
    ensures Aside(w, Next(cfg, w, e), Removes(w, e, id), id)
  {
    if Next(cfg, w, e) != w {
      ReserveInserts(cfg, w, e);
    }
  }

  lemma OwnReserveTracks(cfg: Config, w: World, e: Event, id: nat)
    requires Enabled(w, e) && Inv(cfg, w) && ObjectOk(w, id) && e.Reserve? && e.id == id && Next(cfg, w, e) != w
    ensures Tracks(w, Next(cfg, w, e), Removes(w, e, id), id)
  {
    ReserveInserts(cfg, w, e);
    assert Unopened(Next(cfg, w, e), id);
  }

  lemma OtherDirectIsAside(cfg: Config, w: World, e: Event, id: nat)
    requires Enabled(w, e) && e.DirectEvent? && e.id != id
    ensures Aside(w, Act(cfg, w, e), Removes(w, e, id), id)
  {
  }

  lemma OtherTusIsAside(cfg: Config, w: World, e: Event, id: nat)
    requires Enabled(w, e) && e.TusEvent? && e.id != id
    ensures Aside(w, Act(cfg, w, e), Removes(w, e, id), id)
  {
  }

  lemma RevokeIsAside(cfg: Config, w: World, e: Event, id: nat)
    requires Enabled(w, e) && e.RevokeEvent?
    ensures Aside(w, Act(cfg, w, e), Removes(w, e, id), id)
  {
  }

  lemma DeleteIsAside(cfg: Config, w: World, e: Event, id: nat)
    requires Enabled(w, e) && (e.DeleteRow? || e.DeleteObject?)
    ensures Aside(w, Act(cfg, w, e), Removes(w, e, id), id)
  {
  }

  lemma CleanupIsAside(cfg: Config, w: World, e: Event, id: nat)
    requires Enabled(w, e) && e.CleanupEvent?
    ensures Aside(w, Act(cfg, w, e), Removes(w, e, id), id)
  {
  }

  lemma OwnOpenTracks(cfg: Config, w: World, e: Event, id: nat)
    requires Enabled(w, e) && ShapeOk(w, id) && ObjectOk(w, id) && e.DirectEvent? && e.id == id
    requires e.d.Open?
    ensures Tracks(w, Act(cfg, w, e), Removes(w, e, id), id)
  {
  }

  lemma OwnChunkTracks(cfg: Config, w: World, e: Event, id: nat)
    requires Enabled(w, e) && ShapeOk(w, id) && ObjectOk(w, id) && e.DirectEvent? && e.id == id
    requires e.d.Chunk?
    ensures Tracks(w, Act(cfg, w, e), Removes(w, e, id), id)
  {
  }

  lemma OwnEndTracks(cfg: Config, w: World, e: Event, id: nat)
    requires Enabled(w, e) && ShapeOk(w, id) && ObjectOk(w, id) && e.DirectEvent? && e.id == id
    requires e.d.End?
    ensures Tracks(w, Act(cfg, w, e), Removes(w, e, id), id)
  {
  }

  lemma OwnFailureTracks(cfg: Config, w: World, e: Event, id: nat)
    requires Enabled(w, e) && ShapeOk(w, id) && ObjectOk(w, id) && e.DirectEvent? && e.id == id
    requires !e.d.Open? && !e.d.Chunk? && !e.d.End?
    ensures Tracks(w, Act(cfg, w, e), Removes(w, e, id), id)
  {
  }

  lemma OwnTusWritingTracks(cfg: Config, w: World, e: Event, id: nat)
    requires Enabled(w, e) && ShapeOk(w, id) && ObjectOk(w, id) && e.TusEvent? && e.id == id
    requires e.t.Store? || e.t.Patch?
    ensures Tracks(w, Act(cfg, w, e), Removes(w, e, id), id)
  {
  }

  lemma OwnTusEndTracks(cfg: Config, w: World, e: Event, id: nat)
    requires Enabled(w, e) && ShapeOk(w, id) && ObjectOk(w, id) && e.TusEvent? && e.id == id
    requires !e.t.Store? && !e.t.Patch?
    ensures Tracks(w, Act(cfg, w, e), Removes(w, e, id), id)
  {
  }

  lemma OtherIsAside(cfg: Config, w: World, e: Event, id: nat)
    requires Enabled(w, e) && !e.Tick? && !e.IssueLink? && !e.Reserve?
    requires (e.DirectEvent? || e.TusEvent?) ==> e.id != id
    ensures Aside(w, Act(cfg, w, e), Removes(w, e, id), id)
  {
    if e.DirectEvent? {
      OtherDirectIsAside(cfg, w, e, id);
    } else if e.TusEvent? {
      OtherTusIsAside(cfg, w, e, id);
    } else if e.RevokeEvent? {
      RevokeIsAside(cfg, w, e, id);
    } else if e.CleanupEvent? {
      CleanupIsAside(cfg, w, e, id);
    } else {
      DeleteIsAside(cfg, w, e, id);
    }
  }

  lemma OwnTracks(cfg: Config, w: World, e: Event, id: nat)
    requires Enabled(w, e) && Inv(cfg, w) && ObjectOk(w, id) && (e.DirectEvent? || e.TusEvent?) && e.id == id
    ensures Tracks(w, Act(cfg, w, e), Removes(w, e, id), id)
  {
    assert id in w.files ==> RowOk(cfg, w.files[id], w.links, w.granted[id], w.now);
    if e.TusEvent? {
      if e.t.Store? || e.t.Patch? {
        OwnTusWritingTracks(cfg, w, e, id);
      } else {
        OwnTusEndTracks(cfg, w, e, id);
      }
    } else if e.d.End? {
      OwnEndTracks(cfg, w, e, id);
    } else if e.d.Open? {
      OwnOpenTracks(cfg, w, e, id);
    } else if e.d.Chunk? {
      OwnChunkTracks(cfg, w, e, id);
    } else {
      OwnFailureTracks(cfg, w, e, id);
    }
  }

  lemma ReserveTracks(cfg: Config, w: World, e: Event, id: nat)
    requires Enabled(w, e) && Inv(cfg, w) && ObjectOk(w, id) && e.Reserve?
    ensures Tracks(w, Next(cfg, w, e), Removes(w, e, id), id)
  {
    if e.id == id && Next(cfg, w, e) != w {
      OwnReserveTracks(cfg, w, e, id);
    } else {
      if e.id != id {
        OtherReserveIsAside(cfg, w, e, id);
      }
      AsideTracks(w, Next(cfg, w, e), Removes(w, e, id), id);
    }
  }

  lemma StepTracks(cfg: Config, w: World, e: Event, id: nat)
    requires Enabled(w, e) && Inv(cfg, w) && ObjectOk(w, id)
    ensures Tracks(w, Next(cfg, w, e), Removes(w, e, id), id)
  {
    if e.Tick? || e.IssueLink? {
      TickTracks(cfg, w, e, id);
    } else if e.Reserve? {
      ReserveTracks(cfg, w, e, id);
    } else if (e.DirectEvent? || e.TusEvent?) && e.id == id {
      OwnTracks(cfg, w, e, id);
    } else {
      OtherIsAside(cfg, w, e, id);
      AsideTracks(w, Act(cfg, w, e), Removes(w, e, id), id);
    }
  }

  lemma {:induction false} RunKeepsObjects(cfg: Config, ws: seq<World>, es: seq<Event>, i: nat, id: nat)
    requires Run(cfg, ws, es) && i < |ws|
    ensures ObjectOk(ws[i], id)
  {
    if i > 0 {
      RunKeepsObjects(cfg, ws, es, i - 1, id);
      RunKeepsInv(cfg, ws, es, i - 1);
      assert StepAt(cfg, ws, es, i - 1);
      StepTracks(cfg, ws[i - 1], es[i - 1], id);
    }
  }

  lemma RunTracks(cfg: Config, ws: seq<World>, es: seq<Event>, i: nat, id: nat)
    requires Run(cfg, ws, es) && i < |es|
    ensures ObjectOk(ws[i], id)
    ensures Tracks(ws[i], ws[i + 1], Removes(ws[i], es[i], id), id)
  {
    RunKeepsObjects(cfg, ws, es, i, id);
    RunKeepsInv(cfg, ws, es, i);
    assert StepAt(cfg, ws, es, i);
    StepTracks(cfg, ws[i], es[i], id);
  }

  // ---- Whole runs -------------------------------------------------------------------------------------

  /** Nothing has removed an object that has not been created. */
  lemma {:induction false} UnopenedWasNeverRemoved(cfg: Config, ws: seq<World>, es: seq<Event>, j: nat, id: nat)
    requires Run(cfg, ws, es) && j < |ws| && Unopened(ws[j], id)
    ensures forall k :: 0 <= k < j ==> !Removes(ws[k], es[k], id)
  {
    if j > 0 {
      RunTracks(cfg, ws, es, j - 1, id);
      UnopenedWasNeverRemoved(cfg, ws, es, j - 1, id);
    }
  }

  /** What is kept is in storage exactly when no step has removed it. */
  lemma {:induction false} KeptIsThereUnlessRemoved(cfg: Config, ws: seq<World>, es: seq<Event>, j: nat, id: nat)
    requires Run(cfg, ws, es) && j < |ws| && Kept(ws[j], id)
    ensures Data(id) in ws[j].store <==> forall k :: 0 <= k < j ==> !Removes(ws[k], es[k], id)
  {
    if j > 0 {
      RunTracks(cfg, ws, es, j - 1, id);
      if Kept(ws[j - 1], id) {
        KeptIsThereUnlessRemoved(cfg, ws, es, j - 1, id);
      } else {
        UnopenedWasNeverRemoved(cfg, ws, es, j - 1, id);
      }
    }
  }

  /** From its creation on, what is kept in the end was kept all along. */
  lemma {:induction false} WasKept(cfg: Config, ws: seq<World>, es: seq<Event>, k: nat, j: nat, id: nat)
    requires Run(cfg, ws, es) && k <= j < |ws| && Kept(ws[j], id)
    ensures Kept(ws[k], id) || Unopened(ws[k], id)
    decreases j
  {
    if k < j {
      RunTracks(cfg, ws, es, j - 1, id);
      if Kept(ws[j - 1], id) {
        WasKept(cfg, ws, es, k, j - 1, id);
      } else {
        WasUnopened(cfg, ws, es, k, j - 1, id);
      }
    }
  }

  lemma {:induction false} WasUnopened(cfg: Config, ws: seq<World>, es: seq<Event>, k: nat, j: nat, id: nat)
    requires Run(cfg, ws, es) && k <= j < |ws| && Unopened(ws[j], id)
    ensures Unopened(ws[k], id)
    decreases j
  {
    if k < j {
      RunTracks(cfg, ws, es, j - 1, id);
      WasUnopened(cfg, ws, es, k, j - 1, id);
    }
  }

  /** The object is in storage, it is what the upload sent, and the row has its size. */
  predicate Intact(w: World, id: nat) {
    && id in w.files && Data(id) in w.store
    && w.store[Data(id)].content == TakenOf(w, id) && w.files[id].size == Some(|TakenOf(w, id)|)
  }

  /**
   * A complete row has its object, with the bytes that were sent, in order and without a gap, and
   * their number in the row; unless some step has removed the object: then nothing is left of it.
   */
  lemma CompleteIsIntactUnlessRemoved(cfg: Config, ws: seq<World>, es: seq<Event>, j: nat, id: nat)
    requires Run(cfg, ws, es) && j < |ws| && id in ws[j].files && ws[j].files[id].status.Complete?
    ensures Intact(ws[j], id) <==> forall k :: 0 <= k < j ==> !Removes(ws[k], es[k], id)
    ensures Intact(ws[j], id) <==> Data(id) in ws[j].store
  {
    RunKeepsObjects(cfg, ws, es, j, id);
    RowsAreWellShaped(cfg, ws, es, j, id);
    KeptIsThereUnlessRemoved(cfg, ws, es, j, id);
  }

  /** The hash of a finished direct upload is that of the bytes it sent; a tus upload has none. */
  predicate HashOk(cfg: Config, w: World, id: nat) {
    id in w.files && ReachedComplete(w.files[id].status) ==>
      w.files[id].sha256 == if w.files[id].kind.Direct? then Some(cfg.sha256(TakenOf(w, id))) else None
  }

  predicate NotYetHashed(w: World, id: nat) {
    id in w.files && !ReachedComplete(w.files[id].status) ==> w.files[id].sha256.None?
  }

  lemma AsideKeepsHash(cfg: Config, w: World, w': World, removed: bool, id: nat)
    requires Aside(w, w', removed, id) && HashOk(cfg, w, id) && NotYetHashed(w, id)
    ensures HashOk(cfg, w', id) && NotYetHashed(w', id)
  {
  }

  lemma OwnStepKeepsHash(cfg: Config, w: World, e: Event, id: nat)
    requires Enabled(w, e) && Hashed(cfg, w, e) && ObjectOk(w, id)
    requires (e.DirectEvent? || e.TusEvent?) && e.id == id
    requires HashOk(cfg, w, id) && NotYetHashed(w, id)
    ensures HashOk(cfg, Act(cfg, w, e), id) && NotYetHashed(Act(cfg, w, e), id)
  {
  }

  lemma ReserveKeepsHash(cfg: Config, w: World, e: Event, id: nat)
    requires Enabled(w, e) && e.Reserve? && HashOk(cfg, w, id) && NotYetHashed(w, id)
    ensures HashOk(cfg, Next(cfg, w, e), id) && NotYetHashed(Next(cfg, w, e), id)
  {
  }

  lemma StepKeepsHash(cfg: Config, w: World, e: Event, id: nat)
    requires Enabled(w, e) && Hashed(cfg, w, e) && Inv(cfg, w) && ObjectOk(w, id)
    requires HashOk(cfg, w, id) && NotYetHashed(w, id)
    ensures HashOk(cfg, Next(cfg, w, e), id) && NotYetHashed(Next(cfg, w, e), id)
  {
    if e.Reserve? {
      ReserveKeepsHash(cfg, w, e, id);
    } else if (e.DirectEvent? || e.TusEvent?) && e.id == id {
      OwnStepKeepsHash(cfg, w, e, id);
    } else if !e.Tick? && !e.IssueLink? {
      OtherIsAside(cfg, w, e, id);
      AsideKeepsHash(cfg, w, Act(cfg, w, e), Removes(w, e, id), id);
    }
  }

  lemma {:induction false} RunKeepsHash(cfg: Config, ws: seq<World>, es: seq<Event>, i: nat, id: nat)
    requires Run(cfg, ws, es) && i < |ws|
    ensures HashOk(cfg, ws[i], id) && NotYetHashed(ws[i], id)
  {
    if i > 0 {
      RunKeepsHash(cfg, ws, es, i - 1, id);
      RunKeepsObjects(cfg, ws, es, i - 1, id);
      RunKeepsInv(cfg, ws, es, i - 1);
      assert StepAt(cfg, ws, es, i - 1);
      StepKeepsHash(cfg, ws[i - 1], es[i - 1], id);
    }
  }

  /**
   * What the ledger says of a finished file is true of the bytes behind it: while the object is
   * there, size and, for a direct upload, hash are those of its content.
   */
  lemma LedgerTellsTheTruth(cfg: Config, ws: seq<World>, es: seq<Event>, j: nat, id: nat)
    requires Run(cfg, ws, es) && j < |ws| && id in ws[j].files && ws[j].files[id].status.Complete?
    requires Data(id) in ws[j].store
    ensures ws[j].files[id].size == Some(|ws[j].store[Data(id)].content|)
    ensures ws[j].files[id].sha256
         == if ws[j].files[id].kind.Direct? then Some(cfg.sha256(ws[j].store[Data(id)].content)) else None
  {
    CompleteIsIntactUnlessRemoved(cfg, ws, es, j, id);
    RunKeepsHash(cfg, ws, es, j, id);
  }

  /** Who can take the object away from a row that is, or becomes, complete. */
  predicate Careless(cfg: Config, e: Event) {
    || (e.RevokeEvent? && e.v.Discard?)
    || (e.CleanupEvent? && e.k.Drop?)
    || (e.CleanupEvent? && e.k.Rm? && cfg.ttl == 0)
  }

  lemma RemoverOfKept(cfg: Config, w: World, e: Event, id: nat)
    requires Enabled(w, e) && ObjectOk(w, id) && Removes(w, e, id)
    requires Live(w.files, id) && Kept(w, id) && Kept(Next(cfg, w, e), id)
    ensures (e.RevokeEvent? && e.v.Discard?) || (e.CleanupEvent? && (e.k.Drop? || e.k.Rm?))
  {
  }

  lemma SweepsSpareTheLive(cfg: Config, w: World, e: Event, id: nat)
    requires Enabled(w, e) && Inv(cfg, w) && cfg.ttl > 0 && e.CleanupEvent? && e.k.Rm? && Removes(w, e, id)
    ensures !Live(w.files, id)
  {
    assert SweepOk(w.cleanups[e.c], w.files, w.used, w.now);
  }

  lemma RemovedWhileKept(cfg: Config, ws: seq<World>, es: seq<Event>, k: nat, j: nat, id: nat)
    requires Run(cfg, ws, es) && k < j < |ws| && id in ws[j].files && ws[j].files[id].status.Complete?
    requires Removes(ws[k], es[k], id)
    ensures Live(ws[k].files, id) && Kept(ws[k], id) && Kept(ws[k + 1], id)
  {
    RunKeepsObjects(cfg, ws, es, j, id);
    WasKept(cfg, ws, es, k, j, id);
    WasKept(cfg, ws, es, k + 1, j, id);
    RunTracks(cfg, ws, es, k, id);
    WasLive(cfg, ws, es, k, j, id);
  }

  lemma WasLive(cfg: Config, ws: seq<World>, es: seq<Event>, k: nat, j: nat, id: nat)
    requires Run(cfg, ws, es) && k <= j < |ws| && id in ws[j].files && ws[j].files[id].status.Complete?
    requires id in ws[k].files
    ensures Live(ws[k].files, id)
  {
    RowsOnlyMoveForward(cfg, ws, es, k, j);
    assert Evolves(ws[k].files[id], ws[j].files[id]);
  }

  /**
   * Only three steps can do that: a revocation or the expiry of stale uploads discarding the data
   * of an upload it listed while it was in progress, and an orphan sweep with no age limit.
   * Removing a deleted file never does.
   */
  lemma OnlyDiscardsLoseCompleteFiles(cfg: Config, ws: seq<World>, es: seq<Event>, k: nat, j: nat, id: nat)
    requires Run(cfg, ws, es) && k < j < |ws| && id in ws[j].files && ws[j].files[id].status.Complete?
    requires Removes(ws[k], es[k], id)
    ensures Careless(cfg, es[k])
  {
    RemovedWhileKept(cfg, ws, es, k, j, id);
    RunKeepsInv(cfg, ws, es, k);
    RunKeepsObjects(cfg, ws, es, k, id);
    assert StepAt(cfg, ws, es, k);
    RemoverOfKept(cfg, ws[k], es[k], id);
    if es[k].CleanupEvent? && es[k].k.Rm? && cfg.ttl > 0 {
      SweepsSpareTheLive(cfg, ws[k], es[k], id);
    }
  }

  // ---- Two runs in which a 201 is worth nothing -------------------------------------------------------

  ghost predicate EndsIn(cfg: Config, ws: seq<World>, es: seq<Event>, w: World) {
    Run(cfg, ws, es) && ws[|es|] == w
  }

  /** Some run leads to this state. */
  ghost predicate Reachable(cfg: Config, w: World) {
    exists ws: seq<World>, es: seq<Event> :: EndsIn(cfg, ws, es, w)
  }

  lemma Onward(cfg: Config, w: World, e: Event)
    requires Reachable(cfg, w) && Enabled(w, e) && Hashed(cfg, w, e)
    ensures Reachable(cfg, Next(cfg, w, e))
  {
    var ws: seq<World>, es: seq<Event> :| EndsIn(cfg, ws, es, w);
    var ws', es' := ws + [Next(cfg, w, e)], es + [e];
    forall i | 0 <= i < |es'| ensures StepAt(cfg, ws', es', i) {
      if i < |es| {
        assert StepAt(cfg, ws, es, i);
      }
    }
    assert EndsIn(cfg, ws', es', Next(cfg, w, e));
  }

  const UNLIMITED := Link(None, None, None, None, None)

  function Issued(): World {
    World(0, {}, map[], map[0 := UNLIMITED], map[], map[], map[], map[], {}, map[], map[], map[], map[])
  }

  function Begun(n: nat): World {
    Issued().(used := {0}, files := map[0 := NewRow(0, Direct, Some(n), n, 0)], granted := map[0 := n], taken := map[0 := []],
              direct := map[0 := DirectUpload(n, Some(n), false, 0, [], Streaming)])
  }

  function Streamed(n: nat, bytes: seq<byte>): World {
    Begun(n).(store := map[Data(0) := Blob(bytes, 0)], taken := map[0 := bytes],
              direct := map[0 := DirectUpload(n, Some(n), true, |bytes|, [], Streaming)])
  }

  function Listed(n: nat, bytes: seq<byte>): World {
    Streamed(n, bytes).(links := map[0 := UNLIMITED.(revokedAt := Some(0))],
                        revocations := map[0 := Revocation({0}, {0}, None)])
  }

  function Visited(n: nat, bytes: seq<byte>): World {
    Listed(n, bytes).(revocations := map[0 := Revocation({0}, {}, Some(0))])
  }

  function Discarded(n: nat, bytes: seq<byte>): World {
    Visited(n, bytes).(store := map[])
  }

  function AbortedThen(n: nat, bytes: seq<byte>): World {
    Discarded(n, bytes).(files := map[0 := NewRow(0, Direct, Some(n), n, 0).(status := Aborted, reserved := 0)],
                         revocations := map[0 := Revocation({0}, {}, None)])
  }

  predicate Sendable(cfg: Config, bytes: seq<byte>) {
    |bytes| <= cfg.maxFileBytes && |bytes| <= MAX_SAFE_INTEGER
  }

  lemma IssuedIsReachable(cfg: Config)
    ensures Reachable(cfg, Issued())
  {
    var w := Issued().(links := map[]);
    assert EndsIn(cfg, [w], [], w);
    Onward(cfg, w, IssueLink(0, UNLIMITED));
  }

  lemma BegunIsReachable(cfg: Config, n: nat)
    requires n <= cfg.maxFileBytes && n <= MAX_SAFE_INTEGER
    ensures Reachable(cfg, Begun(n))
  {
    IssuedIsReachable(cfg);
    var w, e := Issued(), Reserve(0, Direct, Some(n), 0);
    assert Admit(EffectiveLimits(cfg.maxFileBytes, w.links[0]), LinkUsage(w.files, 0), Some(n)) == Ok(n);
    Onward(cfg, w, e);
    assert Next(cfg, w, e) == Begun(n);
  }

  lemma StreamedIsReachable(cfg: Config, bytes: seq<byte>)
    requires Sendable(cfg, bytes)
    ensures Reachable(cfg, Streamed(|bytes|, bytes))
  {
    var n := |bytes|;
    BegunIsReachable(cfg, n);
    Onward(cfg, Begun(n), DirectEvent(0, Open));
    assert Next(cfg, Begun(n), DirectEvent(0, Open)) == Streamed(n, []);
    Onward(cfg, Streamed(n, []), DirectEvent(0, Chunk(bytes)));
    assert [] + bytes == bytes;
    assert Next(cfg, Streamed(n, []), DirectEvent(0, Chunk(bytes))) == Streamed(n, bytes);
  }

  lemma ListedIsReachable(cfg: Config, bytes: seq<byte>)
    requires Sendable(cfg, bytes)
    ensures Reachable(cfg, Listed(|bytes|, bytes))
  {
    var n := |bytes|;
    StreamedIsReachable(cfg, bytes);
    var w, e := Streamed(n, bytes), RevokeEvent(0, Revoke(0));
    assert UploadingForLink(w.files, 0) == {0};
    Onward(cfg, w, e);
    assert Next(cfg, w, e) == Listed(n, bytes);
  }

  lemma DiscardedIsReachable(cfg: Config, bytes: seq<byte>)
    requires Sendable(cfg, bytes)
    ensures Reachable(cfg, Discarded(|bytes|, bytes))
  {
    var n := |bytes|;
    ListedIsReachable(cfg, bytes);
    Onward(cfg, Listed(n, bytes), RevokeEvent(0, Visit(0)));
    assert Listed(n, bytes).revocations[0].todo - {0} == {};
    assert Next(cfg, Listed(n, bytes), RevokeEvent(0, Visit(0))) == Visited(n, bytes);
    Onward(cfg, Visited(n, bytes), RevokeEvent(0, Discard));
    assert Next(cfg, Visited(n, bytes), RevokeEvent(0, Discard)) == Discarded(n, bytes);
  }

  lemma AbortFollows(cfg: Config, n: nat, bytes: seq<byte>)
    ensures Next(cfg, Discarded(n, bytes), RevokeEvent(0, Abort)) == AbortedThen(n, bytes)
  {
    assert FailUpload(Discarded(n, bytes).files, 0, Aborted).0 == AbortedThen(n, bytes).files;
  }

  lemma AbortedIsReachable(cfg: Config, bytes: seq<byte>)
    requires Sendable(cfg, bytes)
    ensures Reachable(cfg, AbortedThen(|bytes|, bytes))
  {
    var n := |bytes|;
    DiscardedIsReachable(cfg, bytes);
    Onward(cfg, Discarded(n, bytes), RevokeEvent(0, Abort));
    AbortFollows(cfg, n, bytes);
  }

  /** The upload is answered 201 with its size, and its row is aborted. */
  predicate AcknowledgedAborted(w: World, id: nat, size: nat) {
    id in w.answered && w.answered[id] == size && id in w.files && w.files[id].status.Aborted?
  }

  /** The upload is answered 201 with its size, its row is complete, and its object is gone. */
  predicate AcknowledgedLost(w: World, id: nat, size: nat) {
    && id in w.answered && w.answered[id] == size
    && id in w.files && w.files[id].status.Complete? && w.files[id].size == Some(size)
    && Data(id) !in w.store
  }

  /**
   * The revocation of a link discards and aborts an upload between its last byte and the
   * handler's decision: any content the configuration admits can be acknowledged that way.
   */
  lemma AcknowledgedThoughAborted(cfg: Config, bytes: seq<byte>)
    requires Sendable(cfg, bytes)
    ensures exists w :: Reachable(cfg, w) && AcknowledgedAborted(w, 0, |bytes|)
  {
    var sha256 := cfg.sha256(bytes);
    AbortedIsReachable(cfg, bytes);
    var n := |bytes|;
    Onward(cfg, AbortedThen(n, bytes), DirectEvent(0, End(true, sha256)));
    assert AcknowledgedAborted(Next(cfg, AbortedThen(n, bytes), DirectEvent(0, End(true, sha256))), 0, n);
  }

  /**
   * The handler completes the row between the discarding of the data and the abort: any content
   * the configuration admits can be acknowledged, listed as complete, and lost.
   */
  lemma AcknowledgedThoughLost(cfg: Config, bytes: seq<byte>)
    requires Sendable(cfg, bytes)
    ensures exists w :: Reachable(cfg, w) && AcknowledgedLost(w, 0, |bytes|)
  {
    var sha256 := cfg.sha256(bytes);
    DiscardedIsReachable(cfg, bytes);
    var w := Discarded(|bytes|, bytes);
    Onward(cfg, w, DirectEvent(0, End(true, sha256)));
    assert AcknowledgedLost(Next(cfg, w, DirectEvent(0, End(true, sha256))), 0, |bytes|);
  }
}
