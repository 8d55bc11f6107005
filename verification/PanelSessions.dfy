/**
 * The life of a session: it belongs to one account, ends when configured and not later, never
 * comes back once it has ended, and does not outlive the disabling of its account.
 */
module PanelSessions {
  import opened Common
  import opened Tables
  import opened Auth
  import opened Panel
  import opened PanelMoves
  import opened PanelSteps

  /** The session was there before with the same account and end, or starts in this step. */
  predicate RowFrom(env: Env, e: Event, m: Machine, s: nat, row: Session) {
    || (s in m.t.sessions && row.account == m.t.sessions[s].account && row.expiresAt == m.t.sessions[s].expiresAt)
    || (s !in m.used && StartsSession(e, s) && row.expiresAt == m.now + env.sessionTtlMs)
  }

  predicate Begins(env: Env, e: Event, m: Machine, m': Machine) {
    && m.used <= m'.used && (!e.Tick? ==> m'.now == m.now)
    && forall s :: s in m'.t.sessions ==> RowFrom(env, e, m, s, m'.t.sessions[s])
  }

  lemma SessionMoveBegins(env: Env, e: Event, m: Machine, mv: Move, s: nat)
    requires Allowed(env, e, m, mv) && (OnSession(mv) || mv.Bind?) && s in Apply(env, e, m, mv).t.sessions
    ensures RowFrom(env, e, m, s, Apply(env, e, m, mv).t.sessions[s])
  {
  }

  lemma MoveBegins(env: Env, e: Event, m: Machine, mv: Move)
    requires Allowed(env, e, m, mv)
    ensures Begins(env, e, m, Apply(env, e, m, mv))
  {
    var m' := Apply(env, e, m, mv);
    Frame(env, e, m, mv);
    forall s | s in m'.t.sessions ensures RowFrom(env, e, m, s, m'.t.sessions[s]) {
      if OnSession(mv) || mv.Bind? {
        SessionMoveBegins(env, e, m, mv, s);
      }
    }
  }

  lemma {:induction false} MovesBegin(env: Env, e: Event, m: Machine, mvs: seq<Move>, m': Machine)
    requires Path(env, e, m, mvs, m')
    ensures Begins(env, e, m, m')
    decreases |mvs|
  {
    if mvs != [] {
      var m1 := Apply(env, e, m, mvs[0]);
      MoveBegins(env, e, m, mvs[0]);
      MovesBegin(env, e, m1, mvs[1..], m');
      forall s | s in m'.t.sessions ensures RowFrom(env, e, m, s, m'.t.sessions[s]) {
        assert RowFrom(env, e, m1, s, m'.t.sessions[s]);
        assert s in m1.t.sessions ==> RowFrom(env, e, m, s, m1.t.sessions[s]);
      }
    }
  }

  lemma StepBegins(env: Env, ms: seq<Machine>, es: seq<Event>, i: nat)
    requires Run(env, ms, es) && i < |es|
    ensures Begins(env, es[i], ms[i], ms[i + 1])
  {
    assert StepAt(env, ms, es, i);
    StepIsMoves(env, es[i], ms[i]);
    var mvs :| Path(env, es[i], ms[i], mvs, ms[i + 1]);
    MovesBegin(env, es[i], ms[i], mvs, ms[i + 1]);
  }

  /** Every session started at some step, and its end was set there for good. */
  lemma {:induction false} StartedAtSomeStep(env: Env, ms: seq<Machine>, es: seq<Event>, j: nat, s: nat)
    requires Run(env, ms, es) && j < |ms| && s in ms[j].t.sessions
    ensures exists i :: 0 <= i < j && StartsSession(es[i], s)
                     && ms[j].t.sessions[s].expiresAt == ms[i].now + env.sessionTtlMs
  {
    if j > 0 {
      StepBegins(env, ms, es, j - 1);
      assert RowFrom(env, es[j - 1], ms[j - 1], s, ms[j].t.sessions[s]);
      if s in ms[j - 1].t.sessions && ms[j - 1].t.sessions[s].expiresAt == ms[j].t.sessions[s].expiresAt {
        StartedAtSomeStep(env, ms, es, j - 1, s);
      }
    }
  }

  lemma GateNeedsLiveSession(t: Tables, s: nat, bound: Option<nat>, now: nat)
    requires Gate(t, s, bound, now).1
    ensures s in t.sessions && now < t.sessions[s].expiresAt
    ensures t.sessions[s].account in t.accounts && t.accounts[t.sessions[s].account].disabledAt.None?
  {
  }

  /** A request counts as coming from a session only within the configured time after that session started. */
  lemma SessionsEndInTime(env: Env, ms: seq<Machine>, es: seq<Event>, j: nat)
    requires Run(env, ms, es) && j < |es| && es[j].Arrives?
    requires Gate(ms[j].t, es[j].s, es[j].bound, ms[j].now).1
    ensures exists i :: 0 <= i < j && StartsSession(es[i], es[j].s) && ms[j].now < ms[i].now + env.sessionTtlMs
  {
    GateNeedsLiveSession(ms[j].t, es[j].s, es[j].bound, ms[j].now);
    StartedAtSomeStep(env, ms, es, j, es[j].s);
  }

  /** A session that has ended, by whatever means, never comes back. */
  lemma {:induction false} EndedSessionsStayEnded(env: Env, ms: seq<Machine>, es: seq<Event>, i: nat, j: nat, s: nat)
    requires Run(env, ms, es) && i <= j < |ms| && s in ms[i].used && s !in ms[i].t.sessions
    ensures s in ms[j].used && s !in ms[j].t.sessions
  {
    if i < j {
      EndedSessionsStayEnded(env, ms, es, i, j - 1, s);
      StepBegins(env, ms, es, j - 1);
    }
  }

  /** A session belongs to the same account for as long as it exists. */
  lemma {:induction false} SessionsKeepTheirAccount(env: Env, ms: seq<Machine>, es: seq<Event>, i: nat, j: nat, s: nat)
    requires Run(env, ms, es) && i <= j < |ms| && s in ms[i].t.sessions && s in ms[j].t.sessions
    ensures ms[j].t.sessions[s].account == ms[i].t.sessions[s].account
  {
    if i < j {
      KnownSessions(env, ms, es, j - 1);
      if s in ms[j - 1].used && s !in ms[j - 1].t.sessions {
        EndedSessionsStayEnded(env, ms, es, j - 1, j, s);
      }
      KnownSessions(env, ms, es, i);
      UsedGrows(env, ms, es, i, j - 1);
      StepBegins(env, ms, es, j - 1);
      SessionsKeepTheirAccount(env, ms, es, i, j - 1, s);
    }
  }

  lemma {:induction false} UsedGrows(env: Env, ms: seq<Machine>, es: seq<Event>, i: nat, j: nat)
    requires Run(env, ms, es) && i <= j < |ms|
    ensures ms[i].used <= ms[j].used
  {
    if i < j {
      UsedGrows(env, ms, es, i, j - 1);
      StepBegins(env, ms, es, j - 1);
    }
  }

  lemma SessionKeysKeep(env: Env, e: Event, m: Machine, mv: Move)
    requires Allowed(env, e, m, mv) && m.t.sessions.Keys <= m.used
    ensures Apply(env, e, m, mv).t.sessions.Keys <= Apply(env, e, m, mv).used
  {
    Frame(env, e, m, mv);
    if OnSession(mv) || mv.Bind? {
      forall s | s in Apply(env, e, m, mv).t.sessions ensures s in Apply(env, e, m, mv).used {
        OnlyStartsAdd(env, e, m, mv, s);
      }
    }
  }

  lemma OnlyStartsAdd(env: Env, e: Event, m: Machine, mv: Move, s: nat)
    requires Allowed(env, e, m, mv) && (OnSession(mv) || mv.Bind?) && s in Apply(env, e, m, mv).t.sessions
    ensures s in m.t.sessions || s in Apply(env, e, m, mv).used
  {
    if !(mv.Start? && s == mv.s) {
      AccountOfSession(env, e, m, mv, s);
    }
  }

  // ---- Disabled accounts ----------------------------------------------------------------------------------

  predicate Quiet(t: Tables) {
    forall s :: s in t.sessions && t.sessions[s].account in t.accounts ==> t.accounts[t.sessions[s].account].disabledAt.None?
  }

  lemma AccountMoveKeepsQuiet(env: Env, e: Event, m: Machine, mv: Move, s: nat)
    requires Allowed(env, e, m, mv) && OnAccount(mv) && Quiet(m.t)
    requires s in m.t.sessions && m.t.sessions[s].account in Apply(env, e, m, mv).t.accounts
    ensures Apply(env, e, m, mv).t.accounts[m.t.sessions[s].account].disabledAt.None?
  {
    var a := m.t.sessions[s].account;
    OneAccount(env, e, m, mv);
    if mv.a == a {
      if mv.Edit? {
        assert s in SessionsOf(m.t, a);
      } else if !mv.Create? {
        ActivityOfAccount(env, e, m, mv);
      }
    }
  }

  lemma SessionMoveKeepsQuiet(env: Env, e: Event, m: Machine, mv: Move, s: nat)
    requires Allowed(env, e, m, mv) && (OnSession(mv) || mv.Bind?) && Quiet(m.t) && s in Apply(env, e, m, mv).t.sessions
    ensures var t' := Apply(env, e, m, mv).t;
            t'.sessions[s].account in m.t.accounts ==> m.t.accounts[t'.sessions[s].account].disabledAt.None?
  {
    if mv.Start? && s == mv.s {
    } else {
      AccountOfSession(env, e, m, mv, s);
    }
  }

  lemma AccountOfSession(env: Env, e: Event, m: Machine, mv: Move, s: nat)
    requires Allowed(env, e, m, mv) && (OnSession(mv) || mv.Bind?) && !(mv.Start? && s == mv.s)
    requires s in Apply(env, e, m, mv).t.sessions
    ensures s in m.t.sessions && Apply(env, e, m, mv).t.sessions[s].account == m.t.sessions[s].account
  {
    if mv.End? {
    } else if mv.Verify? {
    } else {
      OneSession(env, e, m, mv);
    }
  }

  lemma MoveKeepsQuiet(env: Env, e: Event, m: Machine, mv: Move)
    requires Allowed(env, e, m, mv) && Quiet(m.t)
    ensures Quiet(Apply(env, e, m, mv).t)
  {
    var t' := Apply(env, e, m, mv).t;
    Frame(env, e, m, mv);
    forall s | s in t'.sessions && t'.sessions[s].account in t'.accounts
      ensures t'.accounts[t'.sessions[s].account].disabledAt.None?
    {
      if OnAccount(mv) {
        AccountMoveKeepsQuiet(env, e, m, mv, s);
      } else if OnSession(mv) || mv.Bind? {
        SessionMoveKeepsQuiet(env, e, m, mv, s);
      }
    }
  }

  lemma {:induction false} MovesKeep(env: Env, e: Event, m: Machine, mvs: seq<Move>, m': Machine)
    requires m.t.sessions.Keys <= m.used && Quiet(m.t) && Path(env, e, m, mvs, m')
    ensures m'.t.sessions.Keys <= m'.used && Quiet(m'.t)
    decreases |mvs|
  {
    if mvs != [] {
      SessionKeysKeep(env, e, m, mvs[0]);
      MoveKeepsQuiet(env, e, m, mvs[0]);
      MovesKeep(env, e, Apply(env, e, m, mvs[0]), mvs[1..], m');
    }
  }

  lemma {:induction false} KnownSessions(env: Env, ms: seq<Machine>, es: seq<Event>, i: nat)
    requires Run(env, ms, es) && i < |ms|
    ensures ms[i].t.sessions.Keys <= ms[i].used && Quiet(ms[i].t)
  {
    if i > 0 {
      KnownSessions(env, ms, es, i - 1);
      assert StepAt(env, ms, es, i - 1);
      StepIsMoves(env, es[i - 1], ms[i - 1]);
      var mvs :| Path(env, es[i - 1], ms[i - 1], mvs, ms[i]);
      MovesKeep(env, es[i - 1], ms[i - 1], mvs, ms[i]);
    }
  }

  /** A disabled account has no session, in any reachable state. */
  lemma DisabledAccountsHaveNoSessions(env: Env, ms: seq<Machine>, es: seq<Event>, i: nat, a: nat)
    requires Run(env, ms, es) && i < |ms| && a in ms[i].t.accounts && ms[i].t.accounts[a].disabledAt.Some?
    ensures SessionsOf(ms[i].t, a) == {}
  {
    KnownSessions(env, ms, es, i);
  }

  // ---- Why sessions end -----------------------------------------------------------------------------------

  /** The rest of a session's row is settled when it starts, and what is verified stays verified. */
  predicate KeepsRow(x: Session, y: Session) {
    y.account == x.account && y.expiresAt == x.expiresAt && y.publicId == x.publicId && (x.verified ==> y.verified)
  }

  lemma BulkMoveKeepsRow(env: Env, e: Event, m: Machine, mv: Move, s: nat)
    requires Allowed(env, e, m, mv) && (mv.Verify? || mv.End?) && s in Apply(env, e, m, mv).t.sessions
    ensures s in m.t.sessions && KeepsRow(m.t.sessions[s], Apply(env, e, m, mv).t.sessions[s])
  {
  }

  lemma SingleMoveKeepsRow(env: Env, e: Event, m: Machine, mv: Move)
    requires Allowed(env, e, m, mv) && (OnSession(mv) || mv.Bind?) && !mv.Start? && !mv.Verify? && !mv.End?
    ensures mv.s in m.t.sessions && mv.s in Apply(env, e, m, mv).t.sessions
    ensures KeepsRow(m.t.sessions[mv.s], Apply(env, e, m, mv).t.sessions[mv.s])
  {
  }

  lemma MoveKeepsRow(env: Env, e: Event, m: Machine, mv: Move, s: nat)
    requires Allowed(env, e, m, mv) && s in m.used && s in Apply(env, e, m, mv).t.sessions
    ensures s in m.t.sessions && KeepsRow(m.t.sessions[s], Apply(env, e, m, mv).t.sessions[s])
  {
    Frame(env, e, m, mv);
    if mv.Verify? || mv.End? {
      BulkMoveKeepsRow(env, e, m, mv, s);
    } else if OnSession(mv) || mv.Bind? {
      OneSession(env, e, m, mv);
      if !mv.Start? {
        SingleMoveKeepsRow(env, e, m, mv);
      }
    }
  }

  lemma MoveEnds(env: Env, e: Event, m: Machine, mv: Move, s: nat)
    requires Allowed(env, e, m, mv) && s in m.t.sessions && s !in Apply(env, e, m, mv).t.sessions
    ensures MayEnd(m.t, e, m.now, s)
  {
    Frame(env, e, m, mv);
    if OnSession(mv) && !mv.End? && !mv.Verify? {
      OneSession(env, e, m, mv);
    }
  }

  /** A reason found after some moves of a step was there before them. */
  lemma MayEndWasSo(env: Env, e: Event, m: Machine, mv: Move, s: nat)
    requires Allowed(env, e, m, mv) && m.t.sessions.Keys <= m.used && Quiet(m.t)
    requires e.Arrives? ==> e.s in m.used
    requires s in m.t.sessions && s in Apply(env, e, m, mv).t.sessions && !e.Tick?
    requires MayEnd(Apply(env, e, m, mv).t, e, m.now, s)
    ensures MayEnd(m.t, e, m.now, s)
  {
    MoveKeepsRow(env, e, m, mv, s);
    MoveKeepsQuiet(env, e, m, mv);
    if e.Arrives? && e.s in Apply(env, e, m, mv).t.sessions {
      MoveKeepsRow(env, e, m, mv, e.s);
    }
  }

  lemma {:induction false} MovesEnd(env: Env, e: Event, m: Machine, mvs: seq<Move>, m': Machine, s: nat)
    requires m.t.sessions.Keys <= m.used && Quiet(m.t) && Path(env, e, m, mvs, m') && !e.Tick?
    requires e.Arrives? ==> e.s in m.used
    requires s in m.t.sessions && s !in m'.t.sessions
    ensures MayEnd(m.t, e, m.now, s)
    decreases |mvs|
  {
    var m1 := Apply(env, e, m, mvs[0]);
    if s in m1.t.sessions {
      Frame(env, e, m, mvs[0]);
      SessionKeysKeep(env, e, m, mvs[0]);
      MoveKeepsQuiet(env, e, m, mvs[0]);
      MovesEnd(env, e, m1, mvs[1..], m', s);
      MayEndWasSo(env, e, m, mvs[0], s);
    } else {
      MoveEnds(env, e, m, mvs[0], s);
    }
  }

  /** Why session `s` ends in this step: for a request, either its own lookup, or an admitted request. */
  predicate Cause(m: Machine, env: Env, e: Event, s: nat)
    requires s in m.t.sessions
  {
    if e.Arrives? then
      var (t, passed) := Gate(m.t, e.s, e.bound, m.now);
      if passed && Admitted(t, env, e.s, m.now, e.r) then MayEnd(m.t, e, m.now, s)
      else e.s == s && Stale(m.t, s, m.now)
    else MayEnd(m.t, e, m.now, s)
  }

  lemma RejectedEndsOnlyStale(m: Machine, env: Env, e: Event, s: nat)
    requires Drawn(m.used, e) && e.Arrives? && s in m.t.sessions && s !in Panel.Step(m, env, e).t.sessions
    requires var (t, passed) := Gate(m.t, e.s, e.bound, m.now); !(passed && Admitted(t, env, e.s, m.now, e.r))
    ensures e.s == s && Stale(m.t, s, m.now)
  {
  }

  /**
   * A session ends only for a cause: it has expired or its account is disabled; its holder signs
   * out or goes on to the second step; an administrator acts on its account; or an admitted
   * request of the same account changes its factors or password, names it, or locks the account
   * while it is still pending. A rejected request ends at most its own stale session.
   */
  lemma SessionsEndOnlyForCause(env: Env, ms: seq<Machine>, es: seq<Event>, i: nat, s: nat)
    requires Run(env, ms, es) && i < |es| && s in ms[i].t.sessions && s !in ms[i + 1].t.sessions
    ensures Cause(ms[i], env, es[i], s)
  {
    var m, e := ms[i], es[i];
    assert StepAt(env, ms, es, i);
    if e.Arrives?
      && (var (t, passed) := Gate(m.t, e.s, e.bound, m.now); !(passed && Admitted(t, env, e.s, m.now, e.r)))
    {
      RejectedEndsOnlyStale(m, env, e, s);
    } else {
      KnownSessions(env, ms, es, i);
      StepIsMoves(env, e, m);
      var mvs :| Path(env, e, m, mvs, ms[i + 1]);
      MovesEnd(env, e, m, mvs, ms[i + 1], s);
    }
  }
}
