/** What holds in every state of every run of the ledger, whatever interleaves with what. */
module InterleavingSafety {
  import opened Common
  import opened Ledger
  import opened Storage
  import opened Interleaving

  // ---- The invariant ----------------------------------------------------------------------------------

  /** One row against its link, its reservation and the clock. */
  predicate RowOk(cfg: Config, r: FileRow, links: Links, granted: nat, now: nat) {
    && RowShape(r)
    && r.createdAt <= now
    && r.link in links
    && granted <= EffectiveLimits(cfg.maxFileBytes, links[r.link]).maxFileBytes
    && (r.declared.Some? ==> granted == r.declared.value)
    && (r.kind.Tus? ==> r.declared.Some?)
    && (r.status.Uploading? ==> r.reserved == granted)
    && (r.size.Some? ==> r.size.value <= granted)
  }

  ghost predicate Rows(cfg: Config, w: World) {
    && w.files.Keys <= w.used
    && w.granted.Keys == w.files.Keys
    && forall id :: id in w.files ==> RowOk(cfg, w.files[id], w.links, w.granted[id], w.now)
  }

  /** No object or sidecar is older than the row it belongs to. */
  predicate EntryOk(a: Artefact, b: Blob, used: set<nat>, files: Files) {
    Recognised(a) ==> a.id in used && (a.id in files ==> files[a.id].createdAt <= b.mtime)
  }

  ghost predicate Entries(w: World) {
    forall a :: a in w.store ==> EntryOk(a, w.store[a], w.used, w.files)
  }

  /** A direct upload under way streams into its own row and never past its reservation. */
  predicate DirectOk(u: DirectUpload, r: FileRow, granted: nat) {
    && r.kind.Direct?
    && u.maxBytes == granted
    && u.declared == r.declared
    && u.received <= u.maxBytes
    && (r.status.Uploading? || r.status.Aborted? || r.status.Expired?)
  }

  ghost predicate Uploads(w: World) {
    forall id :: id in w.direct ==>
      id in w.files && id in w.granted && DirectOk(w.direct[id], w.files[id], w.granted[id])
  }

  ghost predicate Quotas(w: World) {
    forall l :: l in w.links ==> WithinQuota(w.files, l, w.links[l])
  }

  /** Uploads a revocation has dealt with are no longer uploading. */
  ghost predicate RevocationOk(p: Revocation, files: Files) {
    forall id :: id in p.all ==> id in files && (id in p.todo || p.current == Some(id) || !files[id].status.Uploading?)
  }

  ghost predicate Revocations(w: World) {
    forall r :: r in w.revocations ==> RevocationOk(w.revocations[r], w.files)
  }

  /** A live row missing from a sweep's snapshot was created after the snapshot, and the entry a
      sweep has chosen does not belong to a live row. */
  ghost predicate SweepOk(p: Cleanup, files: Files, used: set<nat>, now: nat)
    requires p.Sweeping?
  {
    && p.started <= now
    && (forall id :: Live(files, id) && id !in p.live ==> p.started <= files[id].createdAt)
    && (p.chosen.Some? ==> Recognised(p.chosen.value) && p.chosen.value.id in used && !Live(files, p.chosen.value.id))
  }

  ghost predicate Sweeps(w: World) {
    forall c :: c in w.cleanups && w.cleanups[c].Sweeping? ==> SweepOk(w.cleanups[c], w.files, w.used, w.now)
  }

  /** A sweep only ever chooses entries whose name it recognises. */
  predicate Choices(w: World) {
    forall c :: c in w.cleanups && w.cleanups[c].Sweeping? && w.cleanups[c].chosen.Some? ==>
      Recognised(w.cleanups[c].chosen.value)
  }

  ghost predicate Inv(cfg: Config, w: World) {
    && Rows(cfg, w) && Entries(w) && Uploads(w) && Quotas(w) && Revocations(w) && Choices(w)
    && (cfg.ttl > 0 ==> Sweeps(w))
  }

  // ---- What one statement does ------------------------------------------------------------------------

  /** One row moves along its life, takes no more quota than before, and fits its reservation. */
  ghost predicate Writes(files: Files, files': Files, id: nat, granted: nat) {
    && id in files && id in files' && files' == files[id := files'[id]]
    && Evolves(files[id], files'[id]) && RowShape(files'[id])
    && !files'[id].status.Uploading?
    && Charge(files'[id]) <= Charge(files[id])
    && (Live(files', id) ==> Live(files, id))
    && (files'[id].size.Some? ==> files'[id].size.value <= granted)
  }

  lemma ExecuteWrites(files: Files, s: Statement, now: nat, granted: nat)
    requires Proper(s) && Execute(files, s, now) != files && s.id in files
    requires RowShape(files[s.id])
    requires files[s.id].status.Uploading? ==> files[s.id].reserved == granted
    requires files[s.id].size.Some? ==> files[s.id].size.value <= granted
    requires s.SetComplete? ==> s.size <= granted
    ensures Writes(files, Execute(files, s, now), s.id, granted)
  {
  }

  lemma ExecuteMisses(files: Files, s: Statement, now: nat)
    requires Proper(s) && (s.Keep? || s.id !in files)
    ensures Execute(files, s, now) == files
  {
  }

  lemma CompletesWithinReservation(cfg: Config, w: World, e: Event)
    requires Enabled(w, e) && Rows(cfg, w) && Uploads(w) && StatementOf(w, e).SetComplete?
    ensures StatementOf(w, e).id in w.granted && StatementOf(w, e).size <= w.granted[StatementOf(w, e).id]
    ensures w.files[StatementOf(w, e).id].kind.Direct? ==>
              e.DirectEvent? && StatementOf(w, e).id == e.id && e.id !in NextDirect(w, e.id, e.d)
  {
  }

  lemma ActWrites(cfg: Config, w: World, e: Event)
    requires Enabled(w, e) && Rows(cfg, w) && Uploads(w)
    requires Act(cfg, w, e).files != w.files
    ensures !StatementOf(w, e).Keep? && StatementOf(w, e).id in w.granted
    ensures var id := StatementOf(w, e).id; Writes(w.files, Act(cfg, w, e).files, id, w.granted[id])
  {
    var s := StatementOf(w, e);
    if s.Keep? || s.id !in w.files {
      ExecuteMisses(w.files, s, w.now);
    } else {
      assert RowOk(cfg, w.files[s.id], w.links, w.granted[s.id], w.now);
      if s.SetComplete? {
        CompletesWithinReservation(cfg, w, e);
      }
      ExecuteWrites(w.files, s, w.now, w.granted[s.id]);
    }
  }

  /** Links only ever gain a revocation date. */
  lemma ActLinks(cfg: Config, w: World, e: Event)
    requires Enabled(w, e)
    ensures Act(cfg, w, e).links.Keys == w.links.Keys
    ensures forall l :: l in w.links ==>
              Act(cfg, w, e).links[l] == w.links[l].(revokedAt := Act(cfg, w, e).links[l].revokedAt)
  {
  }

  // ---- What a reservation does ------------------------------------------------------------------------

  /** A fresh uploading row, charged with its own reservation. */
  ghost predicate Inserts(cfg: Config, w: World, w': World, l: nat, kind: Kind, id: nat) {
    && id !in w.used && id in w'.files && id in w'.granted
    && w'.files == w.files[id := w'.files[id]]
    && w'.granted == w.granted[id := w'.granted[id]]
    && w' == w.(files := w'.files, granted := w'.granted, taken := w.taken[id := []], used := w.used + {id},
                direct := w'.direct)
    && RowOk(cfg, w'.files[id], w.links, w'.granted[id], w.now)
    && w'.files[id].status.Uploading? && w'.files[id].createdAt == w.now && w'.files[id].kind == kind
    && var upload := DirectUpload(w'.granted[id], w'.files[id].declared, false, 0, [], Streaming);
       w'.direct == if kind.Direct? then w.direct[id := upload] else w.direct
  }

  lemma ReserveInserts(cfg: Config, w: World, e: Event)
    requires Enabled(w, e) && e.Reserve? && Next(cfg, w, e) != w
    ensures Inserts(cfg, w, Next(cfg, w, e), e.l, e.kind, e.id)
  {
    AdmitExact(EffectiveLimits(cfg.maxFileBytes, w.links[e.l]), LinkUsage(w.files, e.l), e.declared);
  }

  // ---- Every step keeps the invariant -----------------------------------------------------------------

  /** Rows are never removed and only move along their life. */
  lemma StepEvolves(cfg: Config, w: World, e: Event)
    requires Enabled(w, e) && Rows(cfg, w) && Uploads(w)
    ensures TableEvolves(w.files, Next(cfg, w, e).files)
  {
    var w' := Next(cfg, w, e);
    if w'.files != w.files {
      if e.Reserve? {
        ReserveInserts(cfg, w, e);
      } else {
        ActWrites(cfg, w, e);
      }
    }
  }

  /** Links only ever gain a revocation date, which no row depends on. */
  lemma WritesKeepRows(cfg: Config, w: World, w': World, id: nat)
    requires Rows(cfg, w) && id in w.granted && Writes(w.files, w'.files, id, w.granted[id])
    requires w'.now == w.now && w'.granted == w.granted && w'.used == w.used && w'.links.Keys == w.links.Keys
    requires forall l :: l in w.links ==> w'.links[l] == w.links[l].(revokedAt := w'.links[l].revokedAt)
    ensures Rows(cfg, w')
  {
    forall x | x in w'.files ensures RowOk(cfg, w'.files[x], w'.links, w'.granted[x], w'.now) {
      assert RowOk(cfg, w.files[x], w.links, w.granted[x], w.now);
    }
  }

  lemma ActKeepsRows(cfg: Config, w: World, e: Event)
    requires Enabled(w, e) && Rows(cfg, w) && Uploads(w)
    ensures Rows(cfg, Act(cfg, w, e))
  {
    var w' := Act(cfg, w, e);
    ActLinks(cfg, w, e);
    assert w'.now == w.now && w'.granted == w.granted && w'.used == w.used;
    if w'.files != w.files {
      ActWrites(cfg, w, e);
      WritesKeepRows(cfg, w, w', StatementOf(w, e).id);
    } else {
      forall id | id in w'.files ensures RowOk(cfg, w'.files[id], w'.links, w'.granted[id], w'.now) {
        assert RowOk(cfg, w.files[id], w.links, w.granted[id], w.now);
      }
    }
  }

  lemma StepKeepsRows(cfg: Config, w: World, e: Event)
    requires Enabled(w, e) && Rows(cfg, w) && Uploads(w)
    ensures Rows(cfg, Next(cfg, w, e))
  {
    if e.Reserve? {
      if Next(cfg, w, e) != w {
        ReserveInserts(cfg, w, e);
      }
    } else if !e.Tick? && !e.IssueLink? {
      ActKeepsRows(cfg, w, e);
    }
  }

  /** Storage calls write with the present time, and create entries only for existing rows. */
  lemma PerformEntries(w: World, e: Event, a: Artefact)
    requires Enabled(w, e) && Uploads(w) && a in Perform(w.store, AccessOf(w, e), w.now)
    ensures var store' := Perform(w.store, AccessOf(w, e), w.now);
            || (a in w.store && store'[a].mtime == w.store[a].mtime)
            || (store'[a].mtime == w.now && (a in w.store || (Recognised(a) && a.id in w.files)))
  {
  }

  lemma StepKeepsEntries(cfg: Config, w: World, e: Event)
    requires Enabled(w, e) && Rows(cfg, w) && Uploads(w) && Entries(w)
    ensures Entries(Next(cfg, w, e))
  {
    var w' := Next(cfg, w, e);
    StepEvolves(cfg, w, e);
    forall a | a in w'.store ensures EntryOk(a, w'.store[a], w'.used, w'.files) {
      if e.Reserve? {
        if w' != w {
          ReserveInserts(cfg, w, e);
        }
        assert EntryOk(a, w.store[a], w.used, w.files);
      } else if e.Tick? || e.IssueLink? {
        assert EntryOk(a, w.store[a], w.used, w.files);
      } else {
        PerformEntries(w, e, a);
        assert a in w.store ==> EntryOk(a, w.store[a], w.used, w.files);
        if w'.files != w.files {
          ActWrites(cfg, w, e);
        }
        assert Recognised(a) && a.id in w.files ==> RowOk(cfg, w.files[a.id], w.links, w.granted[a.id], w.now);
      }
    }
  }

  lemma DirectAdvances(w: World, id: nat, d: DirectStep)
    requires DirectEnabled(w, id, d) && w.direct[id].received <= w.direct[id].maxBytes
    ensures forall i :: i in NextDirect(w, id, d) ==>
      && i in w.direct
      && NextDirect(w, id, d)[i].maxBytes == w.direct[i].maxBytes
        && NextDirect(w, id, d)[i].declared == w.direct[i].declared
      && (i == id ==> NextDirect(w, id, d)[i].received <= NextDirect(w, id, d)[i].maxBytes)
      && (i != id ==> NextDirect(w, id, d)[i] == w.direct[i])
  {
  }

  lemma ActKeepsUploads(cfg: Config, w: World, e: Event)
    requires Enabled(w, e) && Rows(cfg, w) && Uploads(w)
    ensures Uploads(Act(cfg, w, e))
  {
    var w' := Act(cfg, w, e);
    if e.DirectEvent? {
      DirectAdvances(w, e.id, e.d);
    }
    if w'.files != w.files {
      ActWrites(cfg, w, e);
      if StatementOf(w, e).SetComplete? {
        CompletesWithinReservation(cfg, w, e);
      }
    }
    forall id | id in w'.direct ensures id in w'.files && DirectOk(w'.direct[id], w'.files[id], w'.granted[id]) {
      assert DirectOk(w.direct[id], w.files[id], w.granted[id]);
      if w'.files != w.files && id == StatementOf(w, e).id {
        DirectRowFails(w, e);
      }
    }
  }

  /** The row of an upload still under way can only fail. */
  lemma DirectRowFails(w: World, e: Event)
    requires Enabled(w, e) && !StatementOf(w, e).Keep? && StatementOf(w, e).id in w.files
    requires var s := w.files[StatementOf(w, e).id].status; s.Uploading? || s.Aborted? || s.Expired?
    requires !StatementOf(w, e).SetComplete?
    ensures var s := Execute(w.files, StatementOf(w, e), w.now)[StatementOf(w, e).id].status;
            s.Uploading? || s.Aborted? || s.Expired?
  {
  }

  lemma StepKeepsUploads(cfg: Config, w: World, e: Event)
    requires Enabled(w, e) && Rows(cfg, w) && Uploads(w)
    ensures Uploads(Next(cfg, w, e))
  {
    if e.Reserve? {
      if Next(cfg, w, e) != w {
        ReserveInserts(cfg, w, e);
      }
    } else if !e.Tick? && !e.IssueLink? {
      ActKeepsUploads(cfg, w, e);
    }
  }

  lemma StepKeepsQuotas(cfg: Config, w: World, e: Event)
    requires Enabled(w, e) && Rows(cfg, w) && Uploads(w) && Quotas(w)
    ensures Quotas(Next(cfg, w, e))
  {
    var w' := Next(cfg, w, e);
    forall l | l in w'.links ensures WithinQuota(w'.files, l, w'.links[l]) {
      if e.Tick? {
      } else if e.IssueLink? {
        if e.l == l {
          assert forall id :: id in w.files ==> RowOk(cfg, w.files[id], w.links, w.granted[id], w.now);
          NoRowsNoCharge(w.files, l);
        }
      } else if e.Reserve? {
        ReserveKeepsQuota(w.files, cfg.maxFileBytes, w.links, e.l, e.kind, e.declared, e.id, w.now, l);
      } else {
        ActLinks(cfg, w, e);
        if w'.files != w.files {
          ActWrites(cfg, w, e);
          WriteKeepsQuota(w.files, StatementOf(w, e).id, w'.files[StatementOf(w, e).id], l, w.links[l]);
        }
      }
    }
  }

  lemma {:induction false} NoRowsNoCharge(files: Files, l: nat)
    requires forall id :: id in files ==> files[id].link != l
    ensures forall m :: Total(m, l, files) == 0
    decreases |files|
  {
    if files != map[] {
      Smaller(files, AnyRow(files));
      NoRowsNoCharge(files - {AnyRow(files)}, l);
    }
  }

  /** Taking an upload off the list makes it the current one; only after its row has failed is it left behind. */
  lemma RevocationAdvances(w: World, r: nat, v: RevokeStep, q: nat)
    requires RevokeEnabled(w, r, v) && Revocations(w) && q in NextRevocations(w, r, v)
    ensures var files' := if v.Abort? then FailUpload(w.files, w.revocations[r].current.value, Aborted).0 else w.files;
            RevocationOk(NextRevocations(w, r, v)[q], files')
  {
  }

  lemma RevocationPersists(p: Revocation, files: Files, files': Files)
    requires RevocationOk(p, files) && TableEvolves(files, files')
    ensures RevocationOk(p, files')
  {
    forall id | id in p.all ensures id in files' && Evolves(files[id], files'[id]) {
    }
  }

  lemma StepKeepsRevocations(cfg: Config, w: World, e: Event)
    requires Enabled(w, e) && Rows(cfg, w) && Uploads(w) && Revocations(w)
    ensures Revocations(Next(cfg, w, e))
  {
    var w' := Next(cfg, w, e);
    forall r | r in w'.revocations ensures RevocationOk(w'.revocations[r], w'.files) {
      if e.RevokeEvent? {
        RevocationAdvances(w, e.r, e.v, r);
      } else {
        StepEvolves(cfg, w, e);
        RevocationPersists(w.revocations[r], w.files, w'.files);
      }
    }
  }

  lemma SweepAdvances(cfg: Config, w: World, c: nat, k: CleanupStep, q: nat)
    requires CleanupEnabled(w, c, k) && Rows(cfg, w) && Entries(w) && Sweeps(w) && cfg.ttl > 0
    requires q in NextCleanups(cfg, w, c, k) && NextCleanups(cfg, w, c, k)[q].Sweeping?
    ensures SweepOk(NextCleanups(cfg, w, c, k)[q], w.files, w.used, w.now)
  {
    if k.Stat? && q == c {
      var a, p := k.a, w.cleanups[c];
      if Orphan(w.store, p.live, p.started - cfg.ttl, a) {
        assert EntryOk(a, w.store[a], w.used, w.files);
      }
    }
  }

  /** Rows that evolve and rows created now keep a sweep's promise. */
  lemma SweepPersists(p: Cleanup, w: World, w': World)
    requires p.Sweeping? && SweepOk(p, w.files, w.used, w.now)
    requires w.now <= w'.now && w.used <= w'.used && TableEvolves(w.files, w'.files)
    requires forall id :: id in w'.files && id !in w.files ==> id !in w.used && w'.files[id].createdAt == w.now
    ensures SweepOk(p, w'.files, w'.used, w'.now)
  {
    forall id | Live(w'.files, id) && id !in p.live ensures p.started <= w'.files[id].createdAt {
      if id in w.files {
        assert Evolves(w.files[id], w'.files[id]);
      }
    }
    if p.chosen.Some? && p.chosen.value.id in w.files {
      assert Evolves(w.files[p.chosen.value.id], w'.files[p.chosen.value.id]);
    }
  }

  lemma StepKeepsSweeps(cfg: Config, w: World, e: Event)
    requires Enabled(w, e) && cfg.ttl > 0 && Rows(cfg, w) && Uploads(w) && Entries(w) && Sweeps(w)
    ensures Sweeps(Next(cfg, w, e))
  {
    var w' := Next(cfg, w, e);
    StepEvolves(cfg, w, e);
    if e.Reserve? {
      if w' != w {
        ReserveInserts(cfg, w, e);
      }
    } else if !e.Tick? && !e.IssueLink? && w'.files != w.files {
      ActWrites(cfg, w, e);
    }
    forall c | c in w'.cleanups && w'.cleanups[c].Sweeping? ensures SweepOk(w'.cleanups[c], w'.files, w'.used, w'.now) {
      if e.CleanupEvent? {
        SweepAdvances(cfg, w, e.c, e.k, c);
        assert SweepOk(w'.cleanups[c], w.files, w.used, w.now);
      }
      SweepPersists(w'.cleanups[c], w, w');
    }
  }

  lemma ChoiceAdvances(cfg: Config, w: World, c: nat, k: CleanupStep)
    requires CleanupEnabled(w, c, k) && Choices(w)
    ensures Choices(w.(cleanups := NextCleanups(cfg, w, c, k)))
  {
  }

  lemma StepKeepsChoices(cfg: Config, w: World, e: Event)
    requires Enabled(w, e) && Choices(w)
    ensures Choices(Next(cfg, w, e))
  {
    if e.CleanupEvent? {
      ChoiceAdvances(cfg, w, e.c, e.k);
    }
  }

  lemma StepKeepsInv(cfg: Config, w: World, e: Event)
    requires Enabled(w, e) && Inv(cfg, w)
    ensures Inv(cfg, Next(cfg, w, e))
  {
    StepKeepsRows(cfg, w, e);
    StepKeepsEntries(cfg, w, e);
    StepKeepsUploads(cfg, w, e);
    StepKeepsQuotas(cfg, w, e);
    StepKeepsRevocations(cfg, w, e);
    StepKeepsChoices(cfg, w, e);
    if cfg.ttl > 0 {
      StepKeepsSweeps(cfg, w, e);
    }
  }

  lemma {:induction false} RunKeepsInv(cfg: Config, ws: seq<World>, es: seq<Event>, i: nat)
    requires Run(cfg, ws, es) && i < |ws|
    ensures Inv(cfg, ws[i])
  {
    if i > 0 {
      RunKeepsInv(cfg, ws, es, i - 1);
      assert StepAt(cfg, ws, es, i - 1);
      StepKeepsInv(cfg, ws[i - 1], es[i - 1]);
    }
  }
}
