/**
 * Guessing is slow: through login and confirmation, at most ten wrong codes are judged for an
 * account in any fifteen minutes, and a session that collects five is gone.
 */
module PanelLockout {
  import opened Common
  import opened Arithmetic
  import opened Base32
  import opened Tables
  import opened Passkeys
  import opened Users
  import opened Auth
  import opened Panel
  import opened PanelMoves
  import opened PanelSteps

  /** Times in order, none in the future, with a pause after every tenth. */
  predicate Spaced(w: seq<nat>, now: nat) {
    && (forall q :: 0 <= q < |w| ==> w[q] <= now)
    && (forall q :: 0 < q < |w| ==> w[q - 1] <= w[q])
    && (forall q :: 0 < q < |w| && q % TOTP_ACCOUNT_LOCK_THRESHOLD == 0 ==> w[q] >= w[q - 1] + TOTP_ACCOUNT_LOCK_MS)
  }

  /** The stored count is the number of wrong codes since the last lock, and a fresh lock is still noted. */
  predicate Counted(acc: Account, w: seq<nat>) {
    && acc.failed < TOTP_ACCOUNT_LOCK_THRESHOLD
    && acc.failed == |w| % TOTP_ACCOUNT_LOCK_THRESHOLD
    && (|w| > 0 && acc.failed == 0 ==>
          acc.lockedUntil.Some? && acc.lockedUntil.value >= w[|w| - 1] + TOTP_ACCOUNT_LOCK_MS)
  }

  predicate AttemptsLow(t: Tables) {
    forall s :: s in t.sessions ==> t.sessions[s].attempts < MAX_TOTP_ATTEMPTS
  }

  predicate Inv(m: Machine) {
    && m.h.wrong.Keys <= m.used && m.t.accounts.Keys <= m.used
    && (forall a :: a in m.h.wrong ==> Spaced(m.h.wrong[a], m.now))
    && (forall a :: a in m.t.accounts ==> Counted(m.t.accounts[a], Times(m.h.wrong, a)))
    && AttemptsLow(m.t)
  }

  lemma SpacedLater(w: seq<nat>, now: nat, later: nat)
    requires Spaced(w, now) && now <= later
    ensures Spaced(w, later)
  {
  }

  /** One more wrong code, at a time the account is not locked. */
  lemma OneMore(acc: Account, w: seq<nat>, now: nat)
    requires Counted(acc, w) && Spaced(w, now) && !IsTotpLocked(acc, now)
    ensures Counted(AfterFailure(acc, now), w + [now]) && Spaced(w + [now], now)
  {
    var w' := w + [now];
    NextRemainder(|w|, TOTP_ACCOUNT_LOCK_THRESHOLD);
    forall q | 0 < q < |w'| && q % TOTP_ACCOUNT_LOCK_THRESHOLD == 0 ensures w'[q] >= w'[q - 1] + TOTP_ACCOUNT_LOCK_MS {
      if q < |w| {
        assert w'[q] == w[q] && w'[q - 1] == w[q - 1];
      }
    }
  }

  lemma NextRemainder(n: nat, k: nat)
    requires k > 1
    ensures (n + 1) % k == if n % k + 1 >= k then 0 else n % k + 1
  {
    if n % k + 1 < k {
      assert n + 1 == (n / k) * k + (n % k + 1);
      DivModUnique(n + 1, k, n / k, n % k + 1);
    } else {
      assert n + 1 == (n / k + 1) * k + 0 by { Dist(n / k, 1, k); }
      DivModUnique(n + 1, k, n / k + 1, 0);
    }
  }

  /** Edits keep the count, a reset clears it with its times, a wrong code advances both. */
  lemma AccountMoveCounts(env: Env, e: Event, m: Machine, mv: Move, a: nat)
    requires Inv(m) && Allowed(env, e, m, mv) && OnAccount(mv) && a in Apply(env, e, m, mv).t.accounts
    ensures var m' := Apply(env, e, m, mv); Counted(m'.t.accounts[a], Times(m'.h.wrong, a))
  {
    if a != mv.a {
      OneAccount(env, e, m, mv);
      OtherTimes(env, e, m, mv, a);
      assert Counted(m.t.accounts[a], Times(m.h.wrong, a));
    } else {
      ThisAccountCounts(env, e, m, mv);
    }
  }

  lemma OtherTimes(env: Env, e: Event, m: Machine, mv: Move, a: nat)
    requires Allowed(env, e, m, mv) && OnAccount(mv) && a != mv.a
    ensures Times(Apply(env, e, m, mv).h.wrong, a) == Times(m.h.wrong, a)
  {
    AccountHistoryFrame(env, e, m, mv);
  }

  lemma ThisAccountCounts(env: Env, e: Event, m: Machine, mv: Move)
    requires Inv(m) && Allowed(env, e, m, mv) && OnAccount(mv) && !mv.Delete?
    ensures var m' := Apply(env, e, m, mv); mv.a in m'.t.accounts && Counted(m'.t.accounts[mv.a], Times(m'.h.wrong, mv.a))
  {
    if mv.Create? {
      assert Times(m.h.wrong, mv.a) == [];
    } else if mv.Fail? {
      assert Counted(m.t.accounts[mv.a], Times(m.h.wrong, mv.a));
      OneMore(m.t.accounts[mv.a], Times(m.h.wrong, mv.a), m.now);
    } else if !mv.Clear? {
      assert Counted(m.t.accounts[mv.a], Times(m.h.wrong, mv.a));
      LockOfAccount(env, e, m, mv);
      AccountHistoryFrame(env, e, m, mv);
    }
  }

  lemma AccountMoveKeeps(env: Env, e: Event, m: Machine, mv: Move)
    requires Inv(m) && Allowed(env, e, m, mv) && OnAccount(mv)
    ensures Inv(Apply(env, e, m, mv))
  {
    var m' := Apply(env, e, m, mv);
    Frame(env, e, m, mv);
    HistoryFrame(env, e, m, mv);
    forall a | a in m'.t.accounts ensures Counted(m'.t.accounts[a], Times(m'.h.wrong, a)) {
      AccountMoveCounts(env, e, m, mv, a);
    }
    if mv.Fail? {
      OneMore(m.t.accounts[mv.a], Times(m.h.wrong, mv.a), m.now);
    }
  }

  lemma SessionMoveKeepsAttempts(env: Env, e: Event, m: Machine, mv: Move)
    requires AttemptsLow(m.t) && Allowed(env, e, m, mv) && (OnSession(mv) || mv.Bind?)
    ensures AttemptsLow(Apply(env, e, m, mv).t)
  {
  }

  lemma MoveKeeps(env: Env, e: Event, m: Machine, mv: Move)
    requires Inv(m) && Allowed(env, e, m, mv)
    ensures Inv(Apply(env, e, m, mv))
  {
    var m' := Apply(env, e, m, mv);
    if OnAccount(mv) {
      AccountMoveKeeps(env, e, m, mv);
    } else {
      Frame(env, e, m, mv);
      HistoryFrame(env, e, m, mv);
      if OnSession(mv) || mv.Bind? {
        SessionMoveKeepsAttempts(env, e, m, mv);
      }
      forall a | a in m'.h.wrong ensures Spaced(m'.h.wrong[a], m'.now) {
        SpacedLater(m.h.wrong[a], m.now, m'.now);
      }
    }
  }

  lemma {:induction false} MovesKeep(env: Env, e: Event, m: Machine, mvs: seq<Move>, m': Machine)
    requires Inv(m) && Path(env, e, m, mvs, m')
    ensures Inv(m')
    decreases |mvs|
  {
    if mvs != [] {
      MoveKeeps(env, e, m, mvs[0]);
      MovesKeep(env, e, Apply(env, e, m, mvs[0]), mvs[1..], m');
    }
  }

  lemma {:induction false} RunKeepsInv(env: Env, ms: seq<Machine>, es: seq<Event>, i: nat)
    requires Run(env, ms, es) && i < |ms|
    ensures Inv(ms[i])
  {
    if i > 0 {
      RunKeepsInv(env, ms, es, i - 1);
      assert StepAt(env, ms, es, i - 1);
      StepIsMoves(env, es[i - 1], ms[i - 1]);
      var mvs :| Path(env, es[i - 1], ms[i - 1], mvs, ms[i]);
      MovesKeep(env, es[i - 1], ms[i - 1], mvs, ms[i]);
    }
  }

  // ---- The bound --------------------------------------------------------------------------------------

  lemma {:induction false} Sorted(w: seq<nat>, now: nat, p: nat, q: nat)
    requires Spaced(w, now) && p <= q < |w|
    ensures w[p] <= w[q]
  {
    if p < q {
      Sorted(w, now, p, q - 1);
    }
  }

  /** Any ten codes in a row span a pause. */
  lemma TenSpanAPause(w: seq<nat>, now: nat, p: nat)
    requires Spaced(w, now) && p + 10 < |w|
    ensures w[p + 10] >= w[p] + TOTP_ACCOUNT_LOCK_MS
  {
    var q := p + (10 - p % 10);
    Sorted(w, now, p, q - 1);
    Sorted(w, now, q, p + 10);
  }

  lemma {:induction false} TensSpanPauses(w: seq<nat>, now: nat, p: nat, k: nat)
    requires Spaced(w, now) && p + 10 * k < |w|
    ensures w[p + 10 * k] >= w[p] + k * TOTP_ACCOUNT_LOCK_MS
  {
    if k > 0 {
      TensSpanPauses(w, now, p, k - 1);
      TenSpanAPause(w, now, p + 10 * (k - 1));
    }
  }

  /** Of the wrong codes judged since the last accepted factor or reset, any stretch obeys the bound. */
  lemma WrongCodesAreSlow(env: Env, ms: seq<Machine>, es: seq<Event>, i: nat, a: nat, p: nat, q: nat)
    requires Run(env, ms, es) && i < |ms| && p <= q < |Times(ms[i].h.wrong, a)|
    ensures var w := Times(ms[i].h.wrong, a);
            w[p] <= w[q] && q - p + 1 <= 10 * ((w[q] - w[p]) / TOTP_ACCOUNT_LOCK_MS + 1)
  {
    RunKeepsInv(env, ms, es, i);
    var w, k := Times(ms[i].h.wrong, a), (q - p) / 10;
    Sorted(w, ms[i].now, p, q);
    TensSpanPauses(w, ms[i].now, p, k);
    Sorted(w, ms[i].now, p + 10 * k, q);
    var t: nat := w[q] - w[p];
    assert t >= k * TOTP_ACCOUNT_LOCK_MS;
    assert t / TOTP_ACCOUNT_LOCK_MS >= k;
  }

  lemma CountsStayLow(env: Env, ms: seq<Machine>, es: seq<Event>, i: nat)
    requires Run(env, ms, es) && i < |ms|
    ensures forall a :: a in ms[i].t.accounts ==> ms[i].t.accounts[a].failed < TOTP_ACCOUNT_LOCK_THRESHOLD
    ensures forall s :: s in ms[i].t.sessions ==> ms[i].t.sessions[s].attempts < MAX_TOTP_ATTEMPTS
  {
    RunKeepsInv(env, ms, es, i);
    forall a | a in ms[i].t.accounts ensures ms[i].t.accounts[a].failed < TOTP_ACCOUNT_LOCK_THRESHOLD {
      assert Counted(ms[i].t.accounts[a], Times(ms[i].h.wrong, a));
    }
  }

  // ---- What the recorded times are --------------------------------------------------------------------

  /** A code entered at login or in a confirmation is judged and matches neither the app nor an unused recovery code. */
  predicate JudgedWrong(m: Machine, env: Env, e: Event, a: nat) {
    && TriesCode(e)
    && var (t, passed) := Gate(m.t, e.s, e.bound, m.now);
    && passed && t.sessions[e.s].account == a && a in t.accounts
    && Admitted(t, env, e.s, m.now, e.r)
    && (e.r.LoginRequest? ==> !ReportedVerified(t, e.s))
    && !IsTotpLocked(t.accounts[a], m.now)
    && var code := if e.r.LoginRequest? then e.r.l.code else e.r.c.code;
    && CodeStep(env, t.accounts[a], code, m.now).None?
    && !Redeemable(CodesOf(t, a), code)
  }

  lemma WrongLoginIsRecorded(m: Machine, env: Env, s: nat, l: LoginStep)
    requires s in m.t.sessions && m.t.sessions[s].account in m.t.accounts && l.LoginCode?
    requires var a := m.t.sessions[s].account;
             && !ReportedVerified(m.t, s) && !IsTotpLocked(m.t.accounts[a], m.now)
             && CodeStep(env, m.t.accounts[a], l.code, m.now).None? && !Redeemable(CodesOf(m.t, a), l.code)
    ensures DoLogin(m, env, s, l).h == Wrong(m.h, m.t.sessions[s].account, m.now)
  {
  }

  lemma WrongConfirmationIsRecorded(m: Machine, env: Env, s: nat, c: ConfirmStep)
    requires s in m.t.sessions && m.t.sessions[s].account in m.t.accounts && c.ByCode?
    requires var a := m.t.sessions[s].account;
             && !IsTotpLocked(m.t.accounts[a], m.now)
             && CodeStep(env, m.t.accounts[a], c.code, m.now).None? && !Redeemable(CodesOf(m.t, a), c.code)
    ensures DoConfirm(m, env, s, c).h == Wrong(m.h, m.t.sessions[s].account, m.now)
  {
  }

  /** Every wrong code that is judged is among the times. */
  lemma WrongIsRecorded(m: Machine, env: Env, e: Event, a: nat)
    requires Drawn(m.used, e) && JudgedWrong(m, env, e, a)
    ensures Times(Panel.Step(m, env, e).h.wrong, a) == Times(m.h.wrong, a) + [m.now]
  {
    var m1 := m.(t := Gate(m.t, e.s, e.bound, m.now).0);
    assert Handle(m, env, e) == DoRequest(m1, env, e.s, e.r);
    if e.r.LoginRequest? {
      WrongLoginIsRecorded(m1, env, e.s, e.r.l);
    } else {
      WrongConfirmationIsRecorded(m1, env, e.s, e.r.c);
    }
  }

  /**
   * A factor of `a` is accepted at login, an app code in a confirmation or to disable the app, a
   * recovery code to disable it, or the account's factors are reset.
   */
  predicate Relieves(m: Machine, env: Env, e: Event, a: nat) {
    || (e.CliDisableTotp? && e.a == a && a in m.t.accounts)
    || (e.Arrives?
        && var (t, passed) := Gate(m.t, e.s, e.bound, m.now);
           passed && Admitted(t, env, e.s, m.now, e.r) && Clears(t, env, e.s, e.r, m.now, a))
  }

  /** Seen from behind the gates, the request of session `s` clears the failures of `a`. */
  predicate Clears(t: Tables, env: Env, s: nat, r: Request, now: nat, a: nat)
    requires s in t.sessions && t.sessions[s].account in t.accounts
  {
    var own := t.sessions[s].account;
    match r
    case LoginRequest(l) =>
      && own == a && !ReportedVerified(t, s)
      && ((l.LoginCode? && !IsTotpLocked(t.accounts[a], now) && CodeMatches(t, env, a, l.code, now))
          || (l.LoginPasskey? && AssertionOutcome(t, env, s, a, ForLogin, l.credential, l.assertion, now).Ok?))
    case ConfirmRequest(c) =>
      own == a && c.ByCode? && !IsTotpLocked(t.accounts[a], now) && CodeStep(env, t.accounts[a], c.code, now).Some?
    case FactorRequest(f) => own == a && f.DisableApp? && Disables(t, env, a, f.code, s, now)
    case SessionRequest(_) => false
    case UserRequest(u) => u.ResetFactors? && u.a == a && ResetUserTotp(t, own, a).1.None?
    case SensitiveRequest => false
  }

  predicate Disables(t: Tables, env: Env, a: nat, code: seq<ascii>, s: nat, now: nat) {
    (env.requireTotp ==> HasPasskey(t, a)) && DisableTotp(t, env, a, code, s, now).1
  }

  predicate CodeMatches(t: Tables, env: Env, a: nat, code: seq<ascii>, now: nat)
    requires a in t.accounts
  {
    CodeStep(env, t.accounts[a], code, now).Some? || Redeemable(CodesOf(t, a), code)
  }

  /** The times of `a` stay as they are, or the present joins them. */
  predicate Remembered(h: History, h': History, a: nat, now: nat) {
    Times(h'.wrong, a) == Times(h.wrong, a) || Times(h'.wrong, a) == Times(h.wrong, a) + [now]
  }

  lemma CodeLoginRemembers(m: Machine, env: Env, s: nat, l: LoginStep, a: nat)
    requires s in m.t.sessions && m.t.sessions[s].account in m.t.accounts && l.LoginCode?
    requires !Clears(m.t, env, s, LoginRequest(l), m.now, a)
    ensures Remembered(m.h, DoLogin(m, env, s, l).h, a, m.now)
  {
    if m.t.sessions[s].account == a && !ReportedVerified(m.t, s) && !IsTotpLocked(m.t.accounts[a], m.now) {
      WrongLoginIsRecorded(m, env, s, l);
    }
  }

  lemma PasskeyLoginRemembers(m: Machine, env: Env, s: nat, l: LoginStep, a: nat)
    requires s in m.t.sessions && m.t.sessions[s].account in m.t.accounts && l.LoginPasskey?
    requires !Clears(m.t, env, s, LoginRequest(l), m.now, a)
    ensures Times(DoLogin(m, env, s, l).h.wrong, a) == Times(m.h.wrong, a)
  {
    var b := m.t.sessions[s].account;
    var error := VerifyPasskeyLogin(m.t, env, s, b, l.credential, l.assertion, m.now, l.born, l.publicId).1;
    assert b == a && !ReportedVerified(m.t, s) ==> error.Some?;
  }

  /** A recovery code that confirms leaves the times as they are; a wrong code joins them. */
  lemma ConfirmRemembers(m: Machine, env: Env, s: nat, c: ConfirmStep, a: nat)
    requires s in m.t.sessions && m.t.sessions[s].account in m.t.accounts && c.ByCode?
    requires !Clears(m.t, env, s, ConfirmRequest(c), m.now, a)
    ensures Remembered(m.h, DoConfirm(m, env, s, c).h, a, m.now)
  {
  }

  lemma DisableRemembers(m: Machine, env: Env, s: nat, f: FactorStep, a: nat)
    requires s in m.t.sessions && m.t.sessions[s].account in m.t.accounts && f.DisableApp?
    requires !Clears(m.t, env, s, FactorRequest(f), m.now, a)
    ensures Remembered(m.h, DoFactor(m, env, s, f).h, a, m.now)
  {
  }

  lemma ResetRemembers(m: Machine, env: Env, s: nat, u: UserStep, a: nat)
    requires s in m.t.sessions && m.t.sessions[s].account in m.t.accounts && u.ResetFactors?
    requires !Clears(m.t, env, s, UserRequest(u), m.now, a)
    ensures Remembered(m.h, DoUser(m, m.t.sessions[s].account, u).h, a, m.now)
  {
  }

  lemma {:induction false} MovesLeaveTimes(env: Env, e: Event, m: Machine, mvs: seq<Move>, m': Machine)
    requires Path(env, e, m, mvs, m') && !MayClear(e)
    ensures m'.h.wrong == m.h.wrong
    decreases |mvs|
  {
    if mvs != [] {
      HistoryFrame(env, e, m, mvs[0]);
      MovesLeaveTimes(env, e, Apply(env, e, m, mvs[0]), mvs[1..], m');
    }
  }

  /** Nothing but an accepted factor or a reset makes the panel forget a wrong code. */
  lemma StepRemembers(m: Machine, env: Env, e: Event, a: nat)
    requires Drawn(m.used, e) && !Relieves(m, env, e, a)
    ensures Remembered(m.h, Panel.Step(m, env, e).h, a, m.now)
  {
    if !MayClear(e) {
      StepIsMoves(env, e, m);
      var mvs :| Path(env, e, m, mvs, Panel.Step(m, env, e));
      MovesLeaveTimes(env, e, m, mvs, Panel.Step(m, env, e));
    } else if e.Arrives? {
      var (t1, passed) := Gate(m.t, e.s, e.bound, m.now);
      if passed && Admitted(t1, env, e.s, m.now, e.r) {
        RequestRemembers(m.(t := t1), env, e, a);
      }
    }
  }

  lemma RequestRemembers(m: Machine, env: Env, e: Event, a: nat)
    requires e.Arrives? && Drawn(m.used, e) && MayClear(e)
    requires e.s in m.t.sessions && m.t.sessions[e.s].account in m.t.accounts
    requires !Clears(m.t, env, e.s, e.r, m.now, a)
    ensures Remembered(m.h, DoRequest(m, env, e.s, e.r).h, a, m.now)
  {
    if e.r.LoginRequest? {
      if e.r.l.LoginCode? {
        CodeLoginRemembers(m, env, e.s, e.r.l, a);
      } else {
        PasskeyLoginRemembers(m, env, e.s, e.r.l, a);
      }
    } else if e.r.ConfirmRequest? {
      ConfirmRemembers(m, env, e.s, e.r.c, a);
    } else if e.r.FactorRequest? {
      DisableRemembers(m, env, e.s, e.r.f, a);
    } else {
      ResetRemembers(m, env, e.s, e.r.u, a);
    }
  }

  /** And an accepted factor or a reset does make it forget them all. */
  lemma RequestForgets(m: Machine, env: Env, s: nat, r: Request, a: nat)
    requires s in m.t.sessions && m.t.sessions[s].account in m.t.accounts && (r.FactorRequest? ==> DrawnCodes(r.f))
    requires Clears(m.t, env, s, r, m.now, a)
    ensures Times(DoRequest(m, env, s, r).h.wrong, a) == []
  {
    if r.LoginRequest? {
      if r.l.LoginCode? {
        CodeLoginForgets(m, env, s, r.l);
      } else {
        PasskeyLoginForgets(m, env, s, r.l);
      }
    } else if r.ConfirmRequest? {
      ConfirmForgets(m, env, s, r.c);
    } else if r.FactorRequest? {
      DisableForgets(m, env, s, r.f);
    }
  }

  lemma CodeLoginForgets(m: Machine, env: Env, s: nat, l: LoginStep)
    requires s in m.t.sessions && m.t.sessions[s].account in m.t.accounts && l.LoginCode?
    requires Clears(m.t, env, s, LoginRequest(l), m.now, m.t.sessions[s].account)
    ensures Times(DoLogin(m, env, s, l).h.wrong, m.t.sessions[s].account) == []
  {
  }

  lemma PasskeyLoginForgets(m: Machine, env: Env, s: nat, l: LoginStep)
    requires s in m.t.sessions && m.t.sessions[s].account in m.t.accounts && l.LoginPasskey?
    requires Clears(m.t, env, s, LoginRequest(l), m.now, m.t.sessions[s].account)
    ensures Times(DoLogin(m, env, s, l).h.wrong, m.t.sessions[s].account) == []
  {
    var b := m.t.sessions[s].account;
    var error := VerifyPasskeyLogin(m.t, env, s, b, l.credential, l.assertion, m.now, l.born, l.publicId).1;
    assert error.None?;
  }

  lemma ConfirmForgets(m: Machine, env: Env, s: nat, c: ConfirmStep)
    requires s in m.t.sessions && m.t.sessions[s].account in m.t.accounts && c.ByCode?
    requires Clears(m.t, env, s, ConfirmRequest(c), m.now, m.t.sessions[s].account)
    ensures Times(DoConfirm(m, env, s, c).h.wrong, m.t.sessions[s].account) == []
  {
  }

  lemma DisableForgets(m: Machine, env: Env, s: nat, f: FactorStep)
    requires s in m.t.sessions && m.t.sessions[s].account in m.t.accounts && f.DisableApp?
    requires Clears(m.t, env, s, FactorRequest(f), m.now, m.t.sessions[s].account)
    ensures Times(DoFactor(m, env, s, f).h.wrong, m.t.sessions[s].account) == []
  {
  }

  /** The times are forgotten by exactly the steps that accept a factor or reset the account's. */
  lemma ForgottenExactlyByRelief(m: Machine, env: Env, e: Event, a: nat)
    requires Drawn(m.used, e) && Times(m.h.wrong, a) != []
    ensures Relieves(m, env, e, a) <==> Times(Panel.Step(m, env, e).h.wrong, a) == []
    ensures !Relieves(m, env, e, a) ==> Times(m.h.wrong, a) <= Times(Panel.Step(m, env, e).h.wrong, a)
  {
    if !Relieves(m, env, e, a) {
      StepRemembers(m, env, e, a);
    } else if e.Arrives? {
      var m1 := m.(t := Gate(m.t, e.s, e.bound, m.now).0);
      RequestForgets(m1, env, e.s, e.r, a);
      assert Handle(m, env, e) == DoRequest(m1, env, e.s, e.r);
    }
  }

  // ---- Over a stretch of a run ------------------------------------------------------------------------

  /** How many wrong codes are judged for `a` in the steps from `i` to `j`. */
  ghost function WrongCodes(env: Env, ms: seq<Machine>, es: seq<Event>, i: nat, j: nat, a: nat): nat
    requires i <= j <= |es| && |ms| == |es| + 1
    decreases j
  {
    if i == j then 0
    else WrongCodes(env, ms, es, i, j - 1, a) + (if JudgedWrong(ms[j - 1], env, es[j - 1], a) then 1 else 0)
  }

  ghost predicate NoRelief(env: Env, ms: seq<Machine>, es: seq<Event>, i: nat, j: nat, a: nat)
    requires i <= j <= |es| && |ms| == |es| + 1
  {
    forall k :: i <= k < j ==> !Relieves(ms[k], env, es[k], a)
  }

  /** The times seen at `j` continue those seen at `i`. */
  predicate Continues(before: seq<nat>, after: seq<nat>, from: nat, extra: nat) {
    && |after| >= |before| + extra
    && forall q :: |before| <= q < |after| ==> after[q] >= from
  }

  lemma TimePasses(m: Machine, env: Env, e: Event)
    requires Drawn(m.used, e)
    ensures m.now <= Panel.Step(m, env, e).now
  {
    StepIsMoves(env, e, m);
    var mvs :| Path(env, e, m, mvs, Panel.Step(m, env, e));
    MovesPassTime(env, e, m, mvs, Panel.Step(m, env, e));
  }

  lemma {:induction false} MovesPassTime(env: Env, e: Event, m: Machine, mvs: seq<Move>, m': Machine)
    requires Path(env, e, m, mvs, m')
    ensures m.now <= m'.now
    decreases |mvs|
  {
    if mvs != [] {
      Frame(env, e, m, mvs[0]);
      MovesPassTime(env, e, Apply(env, e, m, mvs[0]), mvs[1..], m');
    }
  }

  lemma {:induction false} StretchContinues(env: Env, ms: seq<Machine>, es: seq<Event>, i: nat, j: nat, a: nat)
    requires Run(env, ms, es) && i <= j <= |es| && NoRelief(env, ms, es, i, j, a)
    ensures ms[i].now <= ms[j].now
    ensures Continues(Times(ms[i].h.wrong, a), Times(ms[j].h.wrong, a), ms[i].now, WrongCodes(env, ms, es, i, j, a))
    decreases j
  {
    if i < j {
      StretchContinues(env, ms, es, i, j - 1, a);
      assert StepAt(env, ms, es, j - 1);
      TimePasses(ms[j - 1], env, es[j - 1]);
      StepRemembers(ms[j - 1], env, es[j - 1], a);
      if JudgedWrong(ms[j - 1], env, es[j - 1], a) {
        WrongIsRecorded(ms[j - 1], env, es[j - 1], a);
      }
    }
  }

  lemma SameBound(c: nat, x: int, y: int)
    requires c <= 10 * (x / TOTP_ACCOUNT_LOCK_MS + 1) && x <= y
    ensures c <= 10 * (y / TOTP_ACCOUNT_LOCK_MS + 1)
  {
  }

  /** The first time recorded in the stretch is in it, and so is the last. */
  lemma StretchEnds(env: Env, ms: seq<Machine>, es: seq<Event>, i: nat, j: nat, a: nat)
    requires Run(env, ms, es) && i <= j <= |es| && NoRelief(env, ms, es, i, j, a) && WrongCodes(env, ms, es, i, j, a) > 0
    ensures var before, w := Times(ms[i].h.wrong, a), Times(ms[j].h.wrong, a);
            && |before| + WrongCodes(env, ms, es, i, j, a) <= |w|
            && ms[i].now <= w[|before|] && w[|w| - 1] <= ms[j].now
  {
    StretchContinues(env, ms, es, i, j, a);
    RunKeepsInv(env, ms, es, j);
    assert a in ms[j].h.wrong && Spaced(ms[j].h.wrong[a], ms[j].now);
  }

  /**
   * Over any stretch of a run in which no factor of the account is accepted and none is reset,
   * at most ten wrong codes are judged for it per lock period begun.
   */
  lemma GuessingIsSlow(env: Env, ms: seq<Machine>, es: seq<Event>, i: nat, j: nat, a: nat)
    requires Run(env, ms, es) && i <= j <= |es| && NoRelief(env, ms, es, i, j, a)
    ensures ms[i].now <= ms[j].now
    ensures WrongCodes(env, ms, es, i, j, a) <= 10 * ((ms[j].now - ms[i].now) / TOTP_ACCOUNT_LOCK_MS + 1)
  {
    StretchContinues(env, ms, es, i, j, a);
    var c := WrongCodes(env, ms, es, i, j, a);
    if c > 0 {
      var p, w := |Times(ms[i].h.wrong, a)|, Times(ms[j].h.wrong, a);
      StretchEnds(env, ms, es, i, j, a);
      WrongCodesAreSlow(env, ms, es, j, a, p, |w| - 1);
      SameBound(c, w[|w| - 1] - w[p], ms[j].now - ms[i].now);
    }
  }
}
