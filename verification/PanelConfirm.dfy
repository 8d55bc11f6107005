/**
 * Sensitive actions need a fresh confirmation: a handler behind `requireConfirmed` runs only if
 * the same session signed in or confirmed within the window, and nothing else extends it.
 */
module PanelConfirm {
  import opened Common
  import opened Tables
  import opened Base32
  import opened Auth
  import opened Passkeys
  import opened Panel
  import opened PanelMoves
  import opened PanelSteps

  predicate WindowOk(row: Session, s: nat, h: History, window: nat) {
    row.confirmedUntil.Some? ==> s in h.okAt && row.confirmedUntil.value == h.okAt[s] + window
  }

  predicate Inv(env: Env, m: Machine) {
    forall s :: s in m.t.sessions ==> WindowOk(m.t.sessions[s], s, m.h, env.reauthWindowMs)
  }

  lemma RowStays(env: Env, e: Event, m: Machine, mv: Move, s: nat)
    requires Allowed(env, e, m, mv) && !mv.Confirm? && (OnSession(mv) || mv.Bind?)
    requires s in Apply(env, e, m, mv).t.sessions
    ensures var row := Apply(env, e, m, mv).t.sessions[s];
            row.confirmedUntil.None? || (s in m.t.sessions && row.confirmedUntil == m.t.sessions[s].confirmedUntil)
  {
  }

  lemma MoveKeeps(env: Env, e: Event, m: Machine, mv: Move)
    requires Inv(env, m) && Allowed(env, e, m, mv)
    ensures Inv(env, Apply(env, e, m, mv))
  {
    var m' := Apply(env, e, m, mv);
    forall s | s in m'.t.sessions ensures WindowOk(m'.t.sessions[s], s, m'.h, env.reauthWindowMs) {
      if mv.Confirm? {
        assert s in m.t.sessions && WindowOk(m.t.sessions[s], s, m.h, env.reauthWindowMs);
      } else {
        Frame(env, e, m, mv);
        HistoryFrame(env, e, m, mv);
        if OnSession(mv) || mv.Bind? {
          RowStays(env, e, m, mv, s);
        }
        assert s in m.t.sessions ==> WindowOk(m.t.sessions[s], s, m.h, env.reauthWindowMs);
      }
    }
  }

  lemma {:induction false} MovesKeep(env: Env, e: Event, m: Machine, mvs: seq<Move>, m': Machine)
    requires Inv(env, m) && Path(env, e, m, mvs, m')
    ensures Inv(env, m')
    decreases |mvs|
  {
    if mvs != [] {
      MoveKeeps(env, e, m, mvs[0]);
      MovesKeep(env, e, Apply(env, e, m, mvs[0]), mvs[1..], m');
    }
  }

  lemma {:induction false} RunKeepsInv(env: Env, ms: seq<Machine>, es: seq<Event>, i: nat)
    requires Run(env, ms, es) && i < |ms|
    ensures Inv(env, ms[i])
  {
    if i > 0 {
      RunKeepsInv(env, ms, es, i - 1);
      assert StepAt(env, ms, es, i - 1);
      StepIsMoves(env, es[i - 1], ms[i - 1]);
      var mvs :| Path(env, es[i - 1], ms[i - 1], mvs, ms[i]);
      MovesKeep(env, es[i - 1], ms[i - 1], mvs, ms[i]);
    }
  }

  // ---- Signing in and confirming ----------------------------------------------------------------------

  predicate CodeMatches(t: Tables, env: Env, a: nat, code: seq<ascii>, now: nat)
    requires a in t.accounts
  {
    !IsTotpLocked(t.accounts[a], now)
      && (CodeStep(env, t.accounts[a], code, now).Some? || Redeemable(CodesOf(t, a), code))
  }

  /** The session a sign-in starts, or the one a confirmation comes from. */
  function Confirming(e: Event): nat
    requires e.SignIn? || e.Arrives?
  {
    if e.SignIn? then e.born
    else if e.r.LoginRequest? && (e.r.l.LoginCode? || e.r.l.LoginPasskey?) then e.r.l.born
    else e.s
  }

  /** Seen from behind the gates, the request passes a second factor or a confirmation. */
  predicate Passes(t: Tables, env: Env, e: Event, now: nat)
    requires e.Arrives? && e.s in t.sessions && t.sessions[e.s].account in t.accounts
  {
    var a := t.sessions[e.s].account;
    match e.r
    case LoginRequest(l) =>
      && !ReportedVerified(t, e.s)
      && ((l.LoginCode? && CodeMatches(t, env, a, l.code, now))
          || (l.LoginPasskey? && AssertionOutcome(t, env, e.s, a, ForLogin, l.credential, l.assertion, now).Ok?))
    case ConfirmRequest(c) =>
      || (c.ByCode? && CodeMatches(t, env, a, c.code, now))
      || (c.ByPassword? && !HasSecondFactor(t, a) && Authenticates(t, a, c.password))
      || (c.WithPasskey? && AssertionOutcome(t, env, e.s, a, ForConfirm, c.credential, c.assertion, now).Ok?)
    case FactorRequest(_) => false
    case SessionRequest(_) => false
    case UserRequest(_) => false
    case SensitiveRequest => false
  }

  /** In this step a sign-in to session `s` is completed, or session `s` confirms itself. */
  predicate ConfirmedIn(m: Machine, env: Env, e: Event, s: nat) {
    || (e.SignIn? && e.born == s && Authenticates(m.t, e.a, e.password) && !HasSecondFactor(m.t, e.a))
    || (e.Arrives? && Confirming(e) == s
        && var (t, passed) := Gate(m.t, e.s, e.bound, m.now);
           passed && Admitted(t, env, e.s, m.now, e.r) && Passes(t, env, e, m.now))
  }

  /** Only `s` changes, to now, and only if `confirmed`. */
  predicate Marks(okAt: map<nat, nat>, okAt': map<nat, nat>, s: nat, now: nat, confirmed: bool) {
    okAt' == if confirmed then okAt[s := now] else okAt
  }

  lemma CodeLoginMarks(m: Machine, env: Env, s: nat, l: LoginStep)
    requires s in m.t.sessions && m.t.sessions[s].account in m.t.accounts && l.LoginCode?
    ensures Marks(m.h.okAt, DoLogin(m, env, s, l).h.okAt, l.born, m.now,
                  !ReportedVerified(m.t, s) && CodeMatches(m.t, env, m.t.sessions[s].account, l.code, m.now))
  {
  }

  lemma PasskeyLoginMarks(m: Machine, env: Env, s: nat, l: LoginStep)
    requires s in m.t.sessions && m.t.sessions[s].account in m.t.accounts && l.LoginPasskey?
    ensures Marks(m.h.okAt, DoLogin(m, env, s, l).h.okAt, l.born, m.now,
                  !ReportedVerified(m.t, s)
                  && AssertionOutcome(m.t, env, s, m.t.sessions[s].account, ForLogin, l.credential, l.assertion,
                                      m.now).Ok?)
  {
    var a := m.t.sessions[s].account;
    var error := VerifyPasskeyLogin(m.t, env, s, a, l.credential, l.assertion, m.now, l.born, l.publicId).1;
    assert error.None? <==> AssertionOutcome(m.t, env, s, a, ForLogin, l.credential, l.assertion, m.now).Ok?;
  }

  lemma CodeConfirmationMarks(m: Machine, env: Env, s: nat, c: ConfirmStep)
    requires s in m.t.sessions && m.t.sessions[s].account in m.t.accounts && c.ByCode?
    ensures Marks(m.h.okAt, DoConfirm(m, env, s, c).h.okAt, s, m.now,
                  CodeMatches(m.t, env, m.t.sessions[s].account, c.code, m.now))
  {
    var a := m.t.sessions[s].account;
    assert VerifyConfirmCode(m.t, env, a, c.code, m.now).1.ConfirmOk? <==> CodeMatches(m.t, env, a, c.code, m.now);
  }

  lemma PasskeyConfirmationMarks(m: Machine, env: Env, s: nat, c: ConfirmStep)
    requires s in m.t.sessions && m.t.sessions[s].account in m.t.accounts && c.WithPasskey?
    ensures Marks(m.h.okAt, DoConfirm(m, env, s, c).h.okAt, s, m.now,
                  AssertionOutcome(m.t, env, s, m.t.sessions[s].account, ForConfirm, c.credential, c.assertion,
                                   m.now).Ok?)
  {
    var a := m.t.sessions[s].account;
    var error := VerifyPasskeyConfirm(m.t, env, s, a, c.credential, c.assertion, m.now).1;
    assert error.None? <==> AssertionOutcome(m.t, env, s, a, ForConfirm, c.credential, c.assertion, m.now).Ok?;
  }

  lemma OtherConfirmationMarks(m: Machine, env: Env, s: nat, c: ConfirmStep)
    requires s in m.t.sessions && m.t.sessions[s].account in m.t.accounts && (c.ByPassword? || c.ConfirmOptions?)
    ensures var a := m.t.sessions[s].account;
            Marks(m.h.okAt, DoConfirm(m, env, s, c).h.okAt, s, m.now,
                  c.ByPassword? && !HasSecondFactor(m.t, a) && Authenticates(m.t, a, c.password))
  {
  }

  lemma {:induction false} MovesMark(env: Env, e: Event, m: Machine, mvs: seq<Move>, m': Machine)
    requires Path(env, e, m, mvs, m') && forall s :: !SignsIn(e, s)
    ensures m'.h.okAt == m.h.okAt
    decreases |mvs|
  {
    if mvs != [] {
      HistoryFrame(env, e, m, mvs[0]);
      MovesMark(env, e, Apply(env, e, m, mvs[0]), mvs[1..], m');
    }
  }

  lemma RequestMarks(m: Machine, env: Env, e: Event)
    requires e.Arrives? && (e.r.ConfirmRequest? || (e.r.LoginRequest? && (e.r.l.LoginCode? || e.r.l.LoginPasskey?)))
    requires e.s in m.t.sessions && m.t.sessions[e.s].account in m.t.accounts
    ensures Marks(m.h.okAt, DoRequest(m, env, e.s, e.r).h.okAt, Confirming(e), m.now, Passes(m.t, env, e, m.now))
  {
    if e.r.LoginRequest? {
      if e.r.l.LoginCode? {
        CodeLoginMarks(m, env, e.s, e.r.l);
      } else {
        PasskeyLoginMarks(m, env, e.s, e.r.l);
      }
    } else if e.r.c.ByCode? {
      CodeConfirmationMarks(m, env, e.s, e.r.c);
    } else if e.r.c.WithPasskey? {
      PasskeyConfirmationMarks(m, env, e.s, e.r.c);
    } else {
      OtherConfirmationMarks(m, env, e.s, e.r.c);
    }
  }

  lemma ArrivalMarks(m: Machine, env: Env, e: Event)
    requires Drawn(m.used, e) && e.Arrives?
    requires e.r.ConfirmRequest? || (e.r.LoginRequest? && (e.r.l.LoginCode? || e.r.l.LoginPasskey?))
    ensures Marks(m.h.okAt, Step(m, env, e).h.okAt, Confirming(e), m.now, ConfirmedIn(m, env, e, Confirming(e)))
  {
    var (t1, passed) := Gate(m.t, e.s, e.bound, m.now);
    if passed && Admitted(t1, env, e.s, m.now, e.r) {
      RequestMarks(m.(t := t1), env, e);
    }
  }

  lemma SignInMarks(m: Machine, env: Env, e: Event)
    requires Drawn(m.used, e) && e.SignIn?
    ensures Marks(m.h.okAt, Step(m, env, e).h.okAt, e.born, m.now, ConfirmedIn(m, env, e, e.born))
  {
  }

  /** A session's time moves only when it signs in or confirms, and then to the present. */
  lemma StepMarks(m: Machine, env: Env, e: Event, s: nat)
    requires Drawn(m.used, e)
    requires s in Step(m, env, e).h.okAt && !(s in m.h.okAt && m.h.okAt[s] == Step(m, env, e).h.okAt[s])
    ensures ConfirmedIn(m, env, e, s) && Step(m, env, e).h.okAt[s] == m.now
  {
    if e.Arrives? && (e.r.ConfirmRequest? || (e.r.LoginRequest? && (e.r.l.LoginCode? || e.r.l.LoginPasskey?))) {
      ArrivalMarks(m, env, e);
    } else if e.SignIn? {
      SignInMarks(m, env, e);
    } else {
      StepIsMoves(env, e, m);
      var mvs :| Path(env, e, m, mvs, Step(m, env, e));
      MovesMark(env, e, m, mvs, Step(m, env, e));
    }
  }

  lemma {:induction false} MarkedAtSomeStep(env: Env, ms: seq<Machine>, es: seq<Event>, j: nat, s: nat)
    requires Run(env, ms, es) && j < |ms| && s in ms[j].h.okAt
    ensures exists i :: 0 <= i < j && ConfirmedIn(ms[i], env, es[i], s) && ms[i].now == ms[j].h.okAt[s]
  {
    if j > 0 {
      assert StepAt(env, ms, es, j - 1);
      if s in ms[j - 1].h.okAt && ms[j - 1].h.okAt[s] == ms[j].h.okAt[s] {
        MarkedAtSomeStep(env, ms, es, j - 1, s);
      } else {
        StepMarks(ms[j - 1], env, es[j - 1], s);
      }
    }
  }

  /** The gates let this request through to a handler guarded by `requireConfirmed`. */
  predicate RunsGuarded(m: Machine, env: Env, e: Event) {
    && e.Arrives? && Guarded(e.r)
    && var (t, passed) := Gate(m.t, e.s, e.bound, m.now);
    && passed && Admitted(t, env, e.s, m.now, e.r)
  }

  lemma GuardedIsConfirmed(m: Machine, env: Env, e: Event)
    requires RunsGuarded(m, env, e)
    ensures e.s in m.t.sessions && m.t.sessions[e.s].confirmedUntil.Some?
              && m.now < m.t.sessions[e.s].confirmedUntil.value
  {
  }

  /** A guarded handler runs only within the window after a sign-in or confirmation of the same session. */
  lemma GuardedHandlersFollowAConfirmation(env: Env, ms: seq<Machine>, es: seq<Event>, j: nat)
    requires Run(env, ms, es) && j < |es| && RunsGuarded(ms[j], env, es[j])
    ensures exists i :: 0 <= i < j && ConfirmedIn(ms[i], env, es[i], es[j].s)
              && ms[j].now < ms[i].now + env.reauthWindowMs
  {
    var s := es[j].s;
    RunKeepsInv(env, ms, es, j);
    GuardedIsConfirmed(ms[j], env, es[j]);
    assert WindowOk(ms[j].t.sessions[s], s, ms[j].h, env.reauthWindowMs);
    MarkedAtSomeStep(env, ms, es, j, s);
  }
}
