/** The promises of the upload ledger, over whole runs. */
module InterleavingRuns {
  import opened Common
  import opened Ledger
  import opened Storage
  import opened Interleaving
  import opened InterleavingSafety

  // ---- Quota ------------------------------------------------------------------------------------------

  lemma StepKeepsLimits(cfg: Config, ws: seq<World>, es: seq<Event>, i: nat, l: nat)
    requires Run(cfg, ws, es) && i < |es| && l in ws[i].links
    ensures l in ws[i + 1].links && ws[i + 1].links[l] == ws[i].links[l].(revokedAt := ws[i + 1].links[l].revokedAt)
  {
    assert StepAt(cfg, ws, es, i);
    if !es[i].Tick? && !es[i].IssueLink? && !es[i].Reserve? {
      ActLinks(cfg, ws[i], es[i]);
    }
  }

  lemma {:induction false} LimitsAreFixed(cfg: Config, ws: seq<World>, es: seq<Event>, i: nat, j: nat, l: nat)
    requires Run(cfg, ws, es) && i <= j < |ws| && l in ws[i].links
    ensures l in ws[j].links && ws[j].links[l] == ws[i].links[l].(revokedAt := ws[j].links[l].revokedAt)
  {
    if i < j {
      LimitsAreFixed(cfg, ws, es, i, j - 1, l);
      StepKeepsLimits(cfg, ws, es, j - 1, l);
    }
  }

  /**
   * No interleaving ever takes a link over the limits it was issued with: stored plus reserved
   * bytes, and finished plus unfinished files. Every stored size is at most what was reserved
   * for that upload, and that is at most the per-file cap.
   */
  lemma QuotaAlwaysHolds(cfg: Config, ws: seq<World>, es: seq<Event>, i: nat, j: nat, l: nat)
    requires Run(cfg, ws, es) && i <= j < |ws| && l in ws[i].links
    ensures WithinQuota(ws[j].files, l, ws[i].links[l])
    ensures forall id :: id in ws[j].files && ws[j].files[id].link == l ==>
      && id in ws[j].granted
      && ws[j].granted[id] <= EffectiveLimits(cfg.maxFileBytes, ws[i].links[l]).maxFileBytes
      && (ws[j].files[id].size.Some? ==> ws[j].files[id].size.value <= ws[j].granted[id])
  {
    LimitsAreFixed(cfg, ws, es, i, j, l);
    RunKeepsInv(cfg, ws, es, j);
    assert WithinQuota(ws[j].files, l, ws[j].links[l]);
    forall id | id in ws[j].files && ws[j].files[id].link == l
      ensures id in ws[j].granted && RowOk(cfg, ws[j].files[id], ws[j].links, ws[j].granted[id], ws[j].now)
    {
    }
  }

  /** Only a reservation adds a row, and a reservation once granted is not changed. */
  lemma StepKeepsGrants(cfg: Config, ws: seq<World>, es: seq<Event>, i: nat, id: nat)
    requires Run(cfg, ws, es) && i < |es| && id in ws[i + 1].files
    ensures id in ws[i + 1].granted
    ensures id in ws[i].files ==> id in ws[i].granted && ws[i + 1].granted[id] == ws[i].granted[id]
    ensures id !in ws[i].files ==>
      es[i].Reserve? && es[i].id == id && ws[i + 1].granted[id] == ws[i + 1].files[id].reserved
  {
    assert StepAt(cfg, ws, es, i);
    RunKeepsInv(cfg, ws, es, i);
    if es[i].Reserve? {
      if ws[i + 1] != ws[i] {
        ReserveInserts(cfg, ws[i], es[i]);
      }
    } else if !es[i].Tick? && !es[i].IssueLink? && ws[i + 1].files != ws[i].files {
      ActWrites(cfg, ws[i], es[i]);
    }
  }

  /** What a reservation grants: the declared size, or some size, up to the per-file cap. */
  lemma GrantFitsTheCap(cfg: Config, ws: seq<World>, es: seq<Event>, i: nat, id: nat)
    requires Run(cfg, ws, es) && i < |es| && es[i].Reserve? && es[i].id == id
    requires id !in ws[i].files && id in ws[i + 1].files
    ensures es[i].l in ws[i].links
    ensures ws[i + 1].files[id].link == es[i].l && ws[i + 1].files[id].status.Uploading?
    ensures es[i].declared.Some? ==> ws[i + 1].files[id].reserved == es[i].declared.value
    ensures ws[i + 1].files[id].reserved <= EffectiveLimits(cfg.maxFileBytes, ws[i].links[es[i].l]).maxFileBytes
  {
    assert StepAt(cfg, ws, es, i);
    var limits := EffectiveLimits(cfg.maxFileBytes, ws[i].links[es[i].l]);
    AdmitExact(limits, LinkUsage(ws[i].files, es[i].l), es[i].declared);
  }

  lemma {:induction false} GrantStays(cfg: Config, ws: seq<World>, es: seq<Event>, i: nat, j: nat, id: nat)
    requires Run(cfg, ws, es) && i < j < |ws|
    requires id !in ws[i].files && id in ws[i + 1].files
    ensures es[i].Reserve? && es[i].id == id
    ensures id in ws[j].files && id in ws[j].granted && ws[j].granted[id] == ws[i + 1].files[id].reserved
  {
    RowsOnlyMoveForward(cfg, ws, es, i + 1, j);
    StepKeepsGrants(cfg, ws, es, j - 1, id);
    if j > i + 1 {
      GrantStays(cfg, ws, es, i, j - 1, id);
    }
  }

  /**
   * What a row reserves at first is the declared size when there is one, and at most the per-file
   * cap of its link. It is granted for good: while the upload is in progress it reserves exactly
   * that much, and a finished upload is never larger.
   */
  lemma GrantIsTheReservation(cfg: Config, ws: seq<World>, es: seq<Event>, i: nat, j: nat, id: nat)
    requires Run(cfg, ws, es) && i < j < |ws|
    requires id !in ws[i].files && id in ws[i + 1].files
    ensures es[i].Reserve? && es[i].id == id && es[i].l in ws[i].links
    ensures var grant := ws[i + 1].files[id].reserved;
            && (es[i].declared.Some? ==> grant == es[i].declared.value)
            && grant <= EffectiveLimits(cfg.maxFileBytes, ws[i].links[es[i].l]).maxFileBytes
            && id in ws[j].granted && ws[j].granted[id] == grant
            && id in ws[j].files
            && (ws[j].files[id].status.Uploading? ==> ws[j].files[id].reserved == grant)
            && (ws[j].files[id].size.Some? ==> ws[j].files[id].size.value <= grant)
  {
    GrantStays(cfg, ws, es, i, j, id);
    GrantFitsTheCap(cfg, ws, es, i, id);
    RunKeepsInv(cfg, ws, es, j);
    assert RowOk(cfg, ws[j].files[id], ws[j].links, ws[j].granted[id], ws[j].now);
  }

  // ---- The life of a row ------------------------------------------------------------------------------

  lemma RowsMoveForward(cfg: Config, ws: seq<World>, es: seq<Event>, i: nat)
    requires Run(cfg, ws, es) && i < |es|
    ensures TableEvolves(ws[i].files, ws[i + 1].files)
  {
    assert StepAt(cfg, ws, es, i);
    RunKeepsInv(cfg, ws, es, i);
    StepEvolves(cfg, ws[i], es[i]);
  }

  /** Rows never disappear, and between any two moments they have only moved along their life. */
  lemma {:induction false} RowsOnlyMoveForward(cfg: Config, ws: seq<World>, es: seq<Event>, i: nat, j: nat)
    requires Run(cfg, ws, es) && i <= j < |ws|
    ensures TableEvolves(ws[i].files, ws[j].files)
  {
    if i < j {
      RowsOnlyMoveForward(cfg, ws, es, i, j - 1);
      RowsMoveForward(cfg, ws, es, j - 1);
      TableEvolvesTransitive(ws[i].files, ws[j - 1].files, ws[j].files);
    }
  }

  /** Reservation only while uploading; size and completion time exactly once complete has been reached. */
  lemma RowsAreWellShaped(cfg: Config, ws: seq<World>, es: seq<Event>, i: nat, id: nat)
    requires Run(cfg, ws, es) && i < |ws| && id in ws[i].files
    ensures RowShape(ws[i].files[id])
  {
    RunKeepsInv(cfg, ws, es, i);
    assert RowOk(cfg, ws[i].files[id], ws[i].links, ws[i].granted[id], ws[i].now);
  }

  /** The step calls `completeUpload` on the row, and it returns true. */
  predicate Completes(w: World, e: Event, id: nat) {
    && Enabled(w, e) && StatementOf(w, e).SetComplete? && StatementOf(w, e).id == id
    && id in w.files && w.files[id].status.Uploading?
  }

  lemma CompletesAtMostOnce(cfg: Config, ws: seq<World>, es: seq<Event>, i: nat, j: nat, id: nat)
    requires Run(cfg, ws, es) && i < j < |es|
    ensures !(Completes(ws[i], es[i], id) && Completes(ws[j], es[j], id))
  {
    if Completes(ws[i], es[i], id) {
      assert StepAt(cfg, ws, es, i);
      assert ws[i + 1].files[id].status.Complete?;
      RowsOnlyMoveForward(cfg, ws, es, i + 1, j);
      assert Evolves(ws[i + 1].files[id], ws[j].files[id]);
    }
  }

  // ---- The orphan sweep -------------------------------------------------------------------------------

  /** No sweep of any run removes an entry whose row is live at the moment of removal. */
  ghost predicate SweepsAreSafe(cfg: Config) {
    forall ws: seq<World>, es: seq<Event>, i: int, c: nat ::
      Run(cfg, ws, es) && 0 <= i < |es| && es[i] == CleanupEvent(c, Rm) ==> RemovesNothingLive(ws[i], c)
  }

  ghost predicate RemovesNothingLive(w: World, c: nat) {
    && c in w.cleanups && w.cleanups[c].Sweeping? && w.cleanups[c].chosen.Some?
    && Recognised(w.cleanups[c].chosen.value)
    && !Live(w.files, w.cleanups[c].chosen.value.id)
  }

  /** A run in which a sweep with no age limit takes the object of an upload that has just begun. */
  ghost function HastyRun(): seq<Event> {
    [IssueLink(0, Link(None, None, None, None, None)),
     CleanupEvent(0, Begin),
     CleanupEvent(0, Snapshot),
     Reserve(0, Direct, Some(0), 0),
     DirectEvent(0, Open),
     CleanupEvent(0, Stat(Data(0))),
     CleanupEvent(0, Rm)]
  }

  function HastyStart(): World {
    World(0, {}, map[], map[0 := Link(None, None, None, None, None)], map[], map[], map[], map[], {}, map[], map[],
          map[], map[])
  }

  function HastyReserved(): World {
    HastyStart().(
      cleanups := map[0 := Sweeping({}, 0, None)],
      files := map[0 := NewRow(0, Direct, Some(0), 0, 0)], used := {0}, granted := map[0 := 0],
      taken := map[0 := []],
      direct := map[0 := DirectUpload(0, Some(0), false, 0, [], Streaming)])
  }

  function HastyChosen(): World {
    HastyReserved().(
      store := map[Data(0) := Blob([], 0)],
      direct := map[0 := DirectUpload(0, Some(0), true, 0, [], Streaming)],
      cleanups := map[0 := Sweeping({}, 0, Some(Data(0)))])
  }

  ghost function HastyStates(cfg: Config): seq<World>
    requires Enabled(HastyChosen(), CleanupEvent(0, Rm))
  {
    [HastyStart().(links := map[]),
     HastyStart(),
     HastyStart().(cleanups := map[0 := Expiring({}, None)]),
     HastyStart().(cleanups := map[0 := Sweeping({}, 0, None)]),
     HastyReserved(),
     HastyChosen().(cleanups := map[0 := Sweeping({}, 0, None)]),
     HastyChosen(),
     Next(cfg, HastyChosen(), CleanupEvent(0, Rm))]
  }

  lemma HastyBeginning(cfg: Config)
    requires cfg.ttl == 0
    ensures StepAt(cfg, HastyStates(cfg), HastyRun(), 0) && StepAt(cfg, HastyStates(cfg), HastyRun(), 1)
  {
    HastyFirst(cfg);
    HastySecond(cfg);
  }

  lemma HastySecond(cfg: Config)
    requires cfg.ttl == 0
    ensures StepAt(cfg, HastyStates(cfg), HastyRun(), 1)
  {
    HastyBegins(cfg);
  }

  lemma HastyBegins(cfg: Config)
    requires cfg.ttl == 0
    ensures Next(cfg, HastyStart(), CleanupEvent(0, Begin)) == HastyStart().(cleanups := map[0 := Expiring({}, None)])
  {
    assert StaleUploads(map[], 0) == {};
  }

  lemma HastyFirst(cfg: Config)
    requires cfg.ttl == 0
    ensures StepAt(cfg, HastyStates(cfg), HastyRun(), 0)
  {
  }

  lemma HastySnapshot(cfg: Config)
    requires cfg.ttl == 0
    ensures StepAt(cfg, HastyStates(cfg), HastyRun(), 2)
  {
    HastySnapshotTaken(cfg);
  }

  lemma HastySnapshotTaken(cfg: Config)
    requires cfg.ttl == 0
    ensures Next(cfg, HastyStart().(cleanups := map[0 := Expiring({}, None)]), CleanupEvent(0, Snapshot))
         == HastyStart().(cleanups := map[0 := Sweeping({}, 0, None)])
  {
    assert LiveStorageKeys(map[]) == {};
  }

  lemma HastyReservation(cfg: Config)
    requires cfg.ttl == 0
    ensures StepAt(cfg, HastyStates(cfg), HastyRun(), 3)
  {
    var w := HastyStart().(cleanups := map[0 := Sweeping({}, 0, None)]);
    assert LinkUsage(w.files, 0) == Usage(0, 0, 0, 0);
    assert Admit(EffectiveLimits(cfg.maxFileBytes, w.links[0]), LinkUsage(w.files, 0), Some(0)) == Ok(0);
  }

  lemma HastyOpening(cfg: Config)
    requires cfg.ttl == 0
    ensures StepAt(cfg, HastyStates(cfg), HastyRun(), 4)
  {
  }

  lemma HastyEnding(cfg: Config)
    requires cfg.ttl == 0
    ensures StepAt(cfg, HastyStates(cfg), HastyRun(), 5) && StepAt(cfg, HastyStates(cfg), HastyRun(), 6)
  {
  }

  lemma HastyRemoval(cfg: Config)
    ensures HastyRun()[6] == CleanupEvent(0, Rm) && !RemovesNothingLive(HastyStates(cfg)[6], 0)
  {
  }

  lemma SevenSteps(cfg: Config, ws: seq<World>, es: seq<Event>)
    requires |ws| == 8 && |es| == 7 && Initial(ws[0])
    requires StepAt(cfg, ws, es, 0) && StepAt(cfg, ws, es, 1) && StepAt(cfg, ws, es, 2) && StepAt(cfg, ws, es, 3)
    requires StepAt(cfg, ws, es, 4) && StepAt(cfg, ws, es, 5) && StepAt(cfg, ws, es, 6)
    ensures Run(cfg, ws, es)
  {
  }

  lemma HastyIsARun(cfg: Config)
    requires cfg.ttl == 0
    ensures Run(cfg, HastyStates(cfg), HastyRun())
  {
    HastyBeginning(cfg);
    HastySnapshot(cfg);
    HastyReservation(cfg);
    HastyOpening(cfg);
    HastyEnding(cfg);
    SevenSteps(cfg, HastyStates(cfg), HastyRun());
  }

  lemma HastySweepIsUnsafe(cfg: Config)
    requires cfg.ttl == 0
    ensures !SweepsAreSafe(cfg)
  {
    HastyIsARun(cfg);
    HastyRemoval(cfg);
    assert HastyRun()[6] == CleanupEvent(0, Rm) && !RemovesNothingLive(HastyStates(cfg)[6], 0);
  }

  /**
   * The sweep acts on a snapshot of live keys taken earlier, and is safe against every upload
   * that starts, finishes or fails meanwhile exactly when the age limit is positive.
   */
  lemma SweepSafeIffTtlPositive(cfg: Config)
    ensures SweepsAreSafe(cfg) <==> cfg.ttl > 0
  {
    if cfg.ttl > 0 {
      forall ws: seq<World>, es: seq<Event>, i: int, c: nat
        | Run(cfg, ws, es) && 0 <= i < |es| && es[i] == CleanupEvent(c, Rm)
        ensures RemovesNothingLive(ws[i], c)
      {
        RunKeepsInv(cfg, ws, es, i);
        assert StepAt(cfg, ws, es, i);
        assert SweepOk(ws[i].cleanups[c], ws[i].files, ws[i].used, ws[i].now);
      }
    } else {
      HastySweepIsUnsafe(cfg);
    }
  }

  lemma StepLeavesOthers(cfg: Config, ws: seq<World>, es: seq<Event>, i: nat, name: string)
    requires Run(cfg, ws, es) && i < |es|
    ensures Other(name) in ws[i + 1].store <==> Other(name) in ws[i].store
    ensures Other(name) in ws[i].store ==> ws[i + 1].store[Other(name)] == ws[i].store[Other(name)]
  {
    assert StepAt(cfg, ws, es, i);
    RunKeepsInv(cfg, ws, es, i);
    if !es[i].Tick? && !es[i].IssueLink? && !es[i].Reserve? {
      AccessLeavesOthers(ws[i], es[i], name);
    }
  }

  lemma AccessLeavesOthers(w: World, e: Event, name: string)
    requires Enabled(w, e) && Choices(w)
    ensures var store' := Perform(w.store, AccessOf(w, e), w.now);
            && (Other(name) in store' <==> Other(name) in w.store)
            && (Other(name) in w.store ==> store'[Other(name)] == w.store[Other(name)])
  {
  }

  /** Files this application did not create are never touched, by any step. */
  lemma {:induction false} OthersAreLeftAlone(cfg: Config, ws: seq<World>, es: seq<Event>, i: nat, j: nat,
                                                    name: string)
    requires Run(cfg, ws, es) && i <= j < |ws|
    ensures Other(name) in ws[j].store <==> Other(name) in ws[i].store
    ensures Other(name) in ws[i].store ==> ws[j].store[Other(name)] == ws[i].store[Other(name)]
  {
    if i < j {
      OthersAreLeftAlone(cfg, ws, es, i, j - 1, name);
      StepLeavesOthers(cfg, ws, es, j - 1, name);
    }
  }

  // ---- Revoking a link --------------------------------------------------------------------------------

  lemma RevocationContinues(cfg: Config, ws: seq<World>, es: seq<Event>, i: nat, r: nat)
    requires Run(cfg, ws, es) && i < |es| && r in ws[i].revocations && es[i] != RevokeEvent(r, Return)
    ensures r in ws[i + 1].revocations && ws[i + 1].revocations[r].all == ws[i].revocations[r].all
  {
    assert StepAt(cfg, ws, es, i);
  }

  /** While a revocation runs, it keeps the list it started with. */
  lemma {:induction false} RevocationKeepsItsList(cfg: Config, ws: seq<World>, es: seq<Event>, i: nat, j: nat, r: nat)
    requires Run(cfg, ws, es) && i <= j < |ws| && r in ws[i].revocations
    requires forall k :: i <= k < j ==> es[k] != RevokeEvent(r, Return)
    ensures r in ws[j].revocations && ws[j].revocations[r].all == ws[i].revocations[r].all
  {
    if i < j {
      RevocationKeepsItsList(cfg, ws, es, i, j - 1, r);
      RevocationContinues(cfg, ws, es, j - 1, r);
    }
  }

  lemma RevocationLists(cfg: Config, ws: seq<World>, es: seq<Event>, i: nat, r: nat, l: nat)
    requires Run(cfg, ws, es) && i < |es|
    requires es[i] == RevokeEvent(r, Revoke(l)) && l in ws[i].links && ws[i].links[l].revokedAt.None?
    ensures r in ws[i + 1].revocations && ws[i + 1].revocations[r].all == UploadingForLink(ws[i].files, l)
  {
    assert StepAt(cfg, ws, es, i);
  }

  lemma RevocationIsDone(cfg: Config, ws: seq<World>, es: seq<Event>, i: nat, r: nat)
    requires Run(cfg, ws, es) && i < |es| && es[i] == RevokeEvent(r, Return)
    ensures r in ws[i].revocations
    ensures forall id :: id in ws[i].revocations[r].all ==> id in ws[i].files && !ws[i].files[id].status.Uploading?
  {
    assert StepAt(cfg, ws, es, i);
    RunKeepsInv(cfg, ws, es, i);
    assert RevocationOk(ws[i].revocations[r], ws[i].files);
  }

  /** Every upload in progress when its link is revoked has ended when the revocation returns. */
  lemma RevocationEndsUploads(cfg: Config, ws: seq<World>, es: seq<Event>, i: nat, j: nat, r: nat, l: nat)
    requires Run(cfg, ws, es) && i < j < |es|
    requires es[i] == RevokeEvent(r, Revoke(l)) && l in ws[i].links && ws[i].links[l].revokedAt.None?
    requires es[j] == RevokeEvent(r, Return)
    requires forall k :: i < k < j ==> es[k] != RevokeEvent(r, Return)
    ensures forall id :: id in UploadingForLink(ws[i].files, l) ==>
              id in ws[j].files && !ws[j].files[id].status.Uploading?
  {
    RevocationLists(cfg, ws, es, i, r, l);
    RevocationKeepsItsList(cfg, ws, es, i + 1, j, r);
    RevocationIsDone(cfg, ws, es, j, r);
  }

  // ---- What a 201 means -------------------------------------------------------------------------------

  /** A revocation or an expiry ends the upload. */
  predicate Interrupts(w: World, e: Event, id: nat) {
    && Enabled(w, e) && (e.RevokeEvent? || e.CleanupEvent?)
    && StatementOf(w, e).SetFailed? && StatementOf(w, e).id == id
    && id in w.files && w.files[id].status.Uploading?
  }

  /** One step of a direct upload that has not reached its last phase. */
  lemma InterruptedExactlyByInterrupts(cfg: Config, ws: seq<World>, es: seq<Event>, i: nat, id: nat)
    requires Run(cfg, ws, es) && i < |es|
    requires id in ws[i].direct && id in ws[i + 1].direct && !ws[i + 1].direct[id].phase.Deleting?
    ensures !ws[i].direct[id].phase.Deleting?
    ensures id in ws[i].files && id in ws[i + 1].files
    ensures ws[i + 1].files[id].status.Uploading? <==> ws[i].files[id].status.Uploading? && !Interrupts(ws[i], es[i], id)
  {
    var w, e := ws[i], es[i];
    assert StepAt(cfg, ws, es, i);
    RunKeepsInv(cfg, ws, es, i);
    assert DirectOk(w.direct[id], w.files[id], w.granted[id]);
    if e.Reserve? {
      if ws[i + 1] != w {
        ReserveInserts(cfg, w, e);
      }
    } else if !e.Tick? && !e.IssueLink? {
      ActInterrupts(cfg, w, e, id);
    }
  }

  lemma ActInterrupts(cfg: Config, w: World, e: Event, id: nat)
    requires Enabled(w, e) && Inv(cfg, w) && !e.Tick? && !e.IssueLink? && !e.Reserve?
    requires id in w.direct && id in Act(cfg, w, e).direct && !Act(cfg, w, e).direct[id].phase.Deleting?
    requires id in w.files && DirectOk(w.direct[id], w.files[id], w.granted[id])
    ensures !w.direct[id].phase.Deleting?
    ensures id in Act(cfg, w, e).files
    ensures Act(cfg, w, e).files[id].status.Uploading? <==> w.files[id].status.Uploading? && !Interrupts(w, e, id)
  {
    StatementEnds(w.files, StatementOf(w, e), w.now, id);
    if e.DirectEvent? {
      DirectEndsOnlyItself(w, e, id);
    } else if StatementOf(w, e).SetComplete? {
      CompletesWithinReservation(cfg, w, e);
    }
  }

  /** An upload ends when a statement completes or fails it. */
  lemma StatementEnds(files: Files, s: Statement, now: nat, id: nat)
    requires Proper(s) && id in files
    ensures var files' := Execute(files, s, now);
            && id in files'
            && (files'[id].status.Uploading?
                <==> files[id].status.Uploading? && !((s.SetComplete? || s.SetFailed?) && s.id == id))
  {
  }

  /** A direct upload's own steps leave its row uploading until the catch block has run. */
  lemma DirectEndsOnlyItself(w: World, e: Event, id: nat)
    requires Enabled(w, e) && e.DirectEvent? && id in w.direct && id in w.files && id in NextDirect(w, e.id, e.d)
    requires !NextDirect(w, e.id, e.d)[id].phase.Deleting?
    ensures !w.direct[id].phase.Deleting?
    ensures id in Execute(w.files, StatementOf(w, e), w.now)
              && Execute(w.files, StatementOf(w, e), w.now)[id] == w.files[id]
  {
  }

  /** An id that has no direct upload yet, and gets one next, was never interrupted. */
  lemma NotBefore(cfg: Config, ws: seq<World>, es: seq<Event>, i: nat, id: nat)
    requires Run(cfg, ws, es) && i < |es|
    requires id !in ws[i].direct && id in ws[i + 1].direct
    ensures id in ws[i + 1].files && ws[i + 1].files[id].status.Uploading?
    ensures forall k :: 0 <= k <= i ==> !Interrupts(ws[k], es[k], id)
  {
    assert StepAt(cfg, ws, es, i);
    RunKeepsInv(cfg, ws, es, i);
    if es[i].DirectEvent? {
      DirectAdvances(ws[i], es[i].id, es[i].d);
    }
    ReserveInserts(cfg, ws[i], es[i]);
    assert id !in ws[i].files;
    forall k | 0 <= k <= i ensures !Interrupts(ws[k], es[k], id) {
      RowsOnlyMoveForward(cfg, ws, es, k, i);
    }
  }

  /** Until its handler decides, a direct upload is in progress exactly when nothing has interrupted it. */
  lemma {:induction false} InProgressUnlessInterrupted(cfg: Config, ws: seq<World>, es: seq<Event>, i: nat, id: nat)
    requires Run(cfg, ws, es) && i < |ws|
    requires id in ws[i].direct && !ws[i].direct[id].phase.Deleting?
    ensures id in ws[i].files
    ensures ws[i].files[id].status.Uploading? <==> forall k :: 0 <= k < i ==> !Interrupts(ws[k], es[k], id)
  {
    if id in ws[i - 1].direct {
      InterruptedExactlyByInterrupts(cfg, ws, es, i - 1, id);
      InProgressUnlessInterrupted(cfg, ws, es, i - 1, id);
    } else {
      NotBefore(cfg, ws, es, i - 1, id);
    }
  }

  /**
   * The direct handler answers 201 without looking at the result of `completeUpload`. The answer
   * is true - the row is complete, with the size and hash sent back - exactly when no revocation
   * and no expiry came in between; otherwise the row stays aborted or expired.
   */
  lemma CreatedMeansCompleteUnlessInterrupted(cfg: Config, ws: seq<World>, es: seq<Event>, i: nat, id: nat,
                                              sha256: string)
    requires Run(cfg, ws, es) && i < |es|
    requires es[i] == DirectEvent(id, End(true, sha256)) && id in ws[i].direct && Accepted(ws[i].direct[id], true)
    ensures id in ws[i + 1].answered && id in ws[i + 1].files
    ensures (forall k :: 0 <= k < i ==> !Interrupts(ws[k], es[k], id))
            <==> (&& ws[i + 1].files[id].status.Complete?
                  && ws[i + 1].files[id].size == Some(ws[i + 1].answered[id])
                  && ws[i + 1].files[id].sha256 == Some(sha256))
    ensures !ws[i + 1].files[id].status.Complete? ==>
              ws[i + 1].files[id].status.Aborted? || ws[i + 1].files[id].status.Expired?
  {
    assert StepAt(cfg, ws, es, i);
    RunKeepsInv(cfg, ws, es, i);
    assert DirectOk(ws[i].direct[id], ws[i].files[id], ws[i].granted[id]);
    InProgressUnlessInterrupted(cfg, ws, es, i, id);
  }
}
