/** The decomposition itself: handler by handler, a step is a sequence of moves. */
module PanelSteps {
  import opened Common
  import opened Base32
  import opened Totp
  import opened Tables
  import opened Auth
  import opened Passkeys
  import opened Bindings
  import opened Users
  import opened Panel
  import opened PanelMoves
  import W = WebAuthn

  /** From `m0` the moves of this step lead to `m`, once its random values are drawn. */
  ghost predicate Done(env: Env, e: Event, m0: Machine, m: Machine) {
    Reaches(env, e, m0, m.(used := m0.used + Names(e)))
  }

  lemma Finish(env: Env, e: Event, m0: Machine, x: Machine, m: Machine)
    requires Reaches(env, e, m0, x) && x.t == m.t && x.h == m.h && x.now == m.now
    requires m0.used <= x.used <= m0.used + Names(e)
    ensures Done(env, e, m0, m)
  {
    Then(env, e, m0, x, Draw(Names(e)));
    assert x.used + Names(e) == m0.used + Names(e);
  }

  // ---- Signing in -------------------------------------------------------------------------------------

  lemma SignInDone(env: Env, e: Event, m0: Machine, m: Machine)
    requires Reaches(env, e, m0, m) && m.used == m0.used && Drawn(m0.used, e) && e.SignIn?
    ensures Done(env, e, m0, DoSignIn(m, env, e.a, e.password, e.born, e.publicId))
  {
    var m' := DoSignIn(m, env, e.a, e.password, e.born, e.publicId);
    if !Authenticates(m.t, e.a, e.password) {
      Finish(env, e, m0, m, m');
    } else {
      assert e.born in Names(e);
      var row := CreateSession(m.t, env, e.a, e.born, e.publicId, m.now).sessions[e.born];
      var m1 := Starting(env, e, m0, m, e.born, row);
      if HasSecondFactor(m.t, e.a) {
        var m2 := Noting(env, e, m0, m1, {}, {e.born});
        assert m.h.proved + {} == m.h.proved;
        Finish(env, e, m0, m2, m');
      } else {
        var m2 := Confirming(env, e, m0, m1, e.born);
        Finish(env, e, m0, m2, m');
      }
    }
  }

  /** The machine once the second factor has passed: the new session, signed in. */
  function Completed(m: Machine, env: Env, pending: nat, a: nat, s: nat, publicId: nat, factor: Factor): Machine
    requires a in m.t.accounts
  {
    m.(t := MarkConfirmed(CompleteSecondFactor(m.t, env, pending, a, s, publicId, m.now, factor), env, s, m.now),
       h := SignedIn(m.h, a, s, m.now), used := m.used + {s})
  }

  lemma CompletionParts(t: Tables, env: Env, pending: nat, a: nat, s: nat, publicId: nat, now: nat, factor: Factor)
    requires a in t.accounts
    ensures var t' := CompleteSecondFactor(t, env, pending, a, s, publicId, now, factor);
            var reset := WithAccount(t, a, t.accounts[a].(failed := 0, lockedUntil := None));
            && s in t'.sessions && Newborn(t'.sessions[s]) && t'.sessions[s].account == a
            && t' == WithSession(EndSessions(reset, {pending}), s, t'.sessions[s])
  {
  }

  lemma CompletionReaches(env: Env, e: Event, m0: Machine, m: Machine, pending: nat, a: nat, s: nat, publicId: nat,
                          factor: Factor)
    requires Reaches(env, e, m0, m) && a in m.t.accounts && s !in m.used && StartsSession(e, s)
    requires MayClear(e) && MayProve(e) && e.r.LoginRequest? && e.s == pending
    requires m.t.accounts[a].disabledAt.None?
    ensures Reaches(env, e, m0, Completed(m, env, pending, a, s, publicId, factor))
  {
    var m' := Completed(m, env, pending, a, s, publicId, factor);
    var row := CompleteSecondFactor(m.t, env, pending, a, s, publicId, m.now, factor).sessions[s];
    CompletionParts(m.t, env, pending, a, s, publicId, m.now, factor);
    var m1 := Clearing(env, e, m0, m, a, None);
    var m2 := Ending(env, e, m0, m1, {pending});
    var m3 := Starting(env, e, m0, m2, s, row);
    var m4 := Noting(env, e, m0, m3, {s}, {});
    assert m.h.pendingBorn + {} == m.h.pendingBorn;
    var m5 := Confirming(env, e, m0, m4, s);
  }

  /** A wrong code: the account's count, its pending sessions when it locks, and this session's count. */
  lemma WrongCodeReaches(env: Env, e: Event, m0: Machine, m: Machine, a: nat)
    requires Reaches(env, e, m0, m) && a in m.t.accounts && !IsTotpLocked(m.t.accounts[a], m.now) && TriesCode(e)
    requires e.s in m.t.sessions && m.t.sessions[e.s].account == a
    ensures Reaches(env, e, m0, m.(t := RecordTotpFailure(m.t, a, m.now).0, h := Wrong(m.h, a, m.now)))
  {
    var m1 := Failing(env, e, m0, m, a);
    if RecordTotpFailure(m.t, a, m.now).1.Some? {
      var m2 := Ending(env, e, m0, m1, PendingSessionsOf(m.t, a));
    }
  }

  lemma CountedTables(t: Tables, s: nat, a: nat, now: nat)
    requires s in t.sessions && a in t.accounts && RecordTotpFailure(t, a, now).1.None?
    ensures RecordTotpFailure(t, a, now).0.sessions == t.sessions
    ensures var t1 := RecordTotpFailure(t, a, now).0;
            CountSessionFailure(t, s, RecordTotpFailure(t, a, now)).0
            == if t.sessions[s].attempts + 1 >= MAX_TOTP_ATTEMPTS then EndSessions(t1, {s})
               else WithSession(t1, s, t1.sessions[s].(attempts := t1.sessions[s].attempts + 1))
  {
  }

  lemma WrongLoginReaches(env: Env, e: Event, m0: Machine, m: Machine, s: nat, a: nat)
    requires Reaches(env, e, m0, m) && s in m.t.sessions && m.t.sessions[s].account == a && a in m.t.accounts
    requires e.Arrives? && e.s == s && e.r.LoginRequest? && e.r.l.LoginCode? && !IsTotpLocked(m.t.accounts[a], m.now)
    ensures Reaches(env, e, m0, m.(t := CountSessionFailure(m.t, s, RecordTotpFailure(m.t, a, m.now)).0,
                                   h := Wrong(m.h, a, m.now)))
  {
    var (t1, until) := RecordTotpFailure(m.t, a, m.now);
    var m1 := m.(t := t1, h := Wrong(m.h, a, m.now));
    WrongCodeReaches(env, e, m0, m, a);
    if until.None? {
      CountedTables(m.t, s, a, m.now);
      if m.t.sessions[s].attempts + 1 >= MAX_TOTP_ATTEMPTS {
        var m2 := Ending(env, e, m0, m1, {s});
      } else {
        var m2 := Striking(env, e, m0, m1, s);
      }
    }
  }

  /** An accepted code: the app's step, or a recovery code. */
  function AfterCode(m: Machine, env: Env, a: nat, code: seq<ascii>): Machine
    requires a in m.t.accounts
  {
    var step := CodeStep(env, m.t.accounts[a], code, m.now);
    var stepped := WithAccount(m.t, a, m.t.accounts[a].(lastStep := step));
    m.(t := if step.Some? then stepped else ConsumeRecoveryCode(m.t, a, code).0,
       h := CodeAccepted(m.h, m.t, env, a, code, m.now))
  }

  predicate CodeOk(m: Machine, env: Env, a: nat, code: seq<ascii>)
    requires a in m.t.accounts
  {
    CodeStep(env, m.t.accounts[a], code, m.now).Some? || Redeemable(CodesOf(m.t, a), code)
  }

  lemma CodeReaches(env: Env, e: Event, m0: Machine, m: Machine, a: nat, code: seq<ascii>)
    requires Reaches(env, e, m0, m) && a in m.t.accounts && CodeOk(m, env, a, code)
    ensures Reaches(env, e, m0, AfterCode(m, env, a, code))
  {
    if CodeStep(env, m.t.accounts[a], code, m.now).Some? {
      var m1 := Accepting(env, e, m0, m, a, code);
    } else {
      var m1 := Redeeming(env, e, m0, m, a, code);
    }
  }

  lemma AcceptedLoginDone(env: Env, e: Event, m0: Machine, m: Machine)
    requires Reaches(env, e, m0, m) && m.used == m0.used && Drawn(m0.used, e)
    requires e.Arrives? && e.r.LoginRequest? && e.r.l.LoginCode?
    requires e.s in m.t.sessions && m.t.sessions[e.s].account in m.t.accounts
    requires m.t.accounts[m.t.sessions[e.s].account].disabledAt.None?
    requires !ReportedVerified(m.t, e.s) && !IsTotpLocked(m.t.accounts[m.t.sessions[e.s].account], m.now)
    requires CodeOk(m, env, m.t.sessions[e.s].account, e.r.l.code)
    ensures Done(env, e, m0, DoLogin(m, env, e.s, e.r.l))
  {
    var s, l, a := e.s, e.r.l, m.t.sessions[e.s].account;
    var m1 := AfterCode(m, env, a, l.code);
    var factor := if CodeStep(env, m.t.accounts[a], l.code, m.now).Some? then ByTotp else ByRecovery;
    CodeReaches(env, e, m0, m, a, l.code);
    assert l.born in Names(e);
    CompletionReaches(env, e, m0, m1, s, a, l.born, l.publicId, factor);
    Finish(env, e, m0, Completed(m1, env, s, a, l.born, l.publicId, factor), DoLogin(m, env, s, l));
  }

  lemma CodeLoginDone(env: Env, e: Event, m0: Machine, m: Machine)
    requires Reaches(env, e, m0, m) && m.used == m0.used && Drawn(m0.used, e)
    requires e.Arrives? && e.r.LoginRequest? && e.r.l.LoginCode?
    requires e.s in m.t.sessions && m.t.sessions[e.s].account in m.t.accounts
    requires m.t.accounts[m.t.sessions[e.s].account].disabledAt.None?
    ensures Done(env, e, m0, DoLogin(m, env, e.s, e.r.l))
  {
    var s, l, a := e.s, e.r.l, m.t.sessions[e.s].account;
    var m' := DoLogin(m, env, s, l);
    if ReportedVerified(m.t, s) || IsTotpLocked(m.t.accounts[a], m.now) {
      Finish(env, e, m0, m, m');
    } else if CodeOk(m, env, a, l.code) {
      AcceptedLoginDone(env, e, m0, m);
    } else {
      WrongLoginReaches(env, e, m0, m, s, a);
      Finish(env, e, m0, m.(t := CountSessionFailure(m.t, s, RecordTotpFailure(m.t, a, m.now)).0,
                            h := Wrong(m.h, a, m.now)), m');
    }
  }

  /** An attempt with a passkey: the challenge is spent and, if it is accepted, the counter recorded. */
  lemma AssertionReaches(env: Env, e: Event, m0: Machine, m: Machine, s: nat, a: nat, purpose: Purpose, c: seq<byte>,
                         input: W.AssertionInput)
    requires Reaches(env, e, m0, m) && s in m.t.sessions && AnswersFor(e, s, purpose)
    ensures var (t1, error) := CheckAssertion(m.t, env, s, a, purpose, c, input, m.now);
            Reaches(env, e, m0, m.(t := t1, h := Attempted(m.h, m.t, s)))
  {
    var outcome := AssertionOutcome(m.t, env, s, a, purpose, c, input, m.now);
    var m1 := Spending(env, e, m0, m, s, purpose);
    if outcome.Ok? {
      var m2 := Counting(env, e, m0, m1, c, outcome.value);
    }
  }

  lemma PasskeyLoginDone(env: Env, e: Event, m0: Machine, m: Machine)
    requires Reaches(env, e, m0, m) && m.used == m0.used && Drawn(m0.used, e)
    requires e.Arrives? && e.r.LoginRequest? && e.r.l.LoginPasskey?
    requires e.s in m.t.sessions && m.t.sessions[e.s].account in m.t.accounts
    requires m.t.accounts[m.t.sessions[e.s].account].disabledAt.None?
    ensures Done(env, e, m0, DoLogin(m, env, e.s, e.r.l))
  {
    var s, l, a := e.s, e.r.l, m.t.sessions[e.s].account;
    var m' := DoLogin(m, env, s, l);
    if ReportedVerified(m.t, s) {
      Finish(env, e, m0, m, m');
    } else {
      var (t1, error) := CheckAssertion(m.t, env, s, a, ForLogin, l.credential, l.assertion, m.now);
      var m1 := m.(t := t1, h := Attempted(m.h, m.t, s));
      AssertionReaches(env, e, m0, m, s, a, ForLogin, l.credential, l.assertion);
      if error.None? {
        assert l.born in Names(e);
        CompletionReaches(env, e, m0, m1, s, a, l.born, l.publicId, ByPasskey);
        Finish(env, e, m0, Completed(m1, env, s, a, l.born, l.publicId, ByPasskey), m');
      } else {
        Finish(env, e, m0, m1, m');
      }
    }
  }

  lemma LoginDone(env: Env, e: Event, m0: Machine, m: Machine)
    requires Reaches(env, e, m0, m) && m.used == m0.used && Drawn(m0.used, e)
    requires e.Arrives? && e.r.LoginRequest?
    requires e.s in m.t.sessions && m.t.sessions[e.s].account in m.t.accounts
    requires m.t.accounts[m.t.sessions[e.s].account].disabledAt.None?
    ensures Done(env, e, m0, DoLogin(m, env, e.s, e.r.l))
  {
    var s, l := e.s, e.r.l;
    var m' := DoLogin(m, env, s, l);
    if l.LoginCode? {
      CodeLoginDone(env, e, m0, m);
    } else if l.LoginPasskey? {
      PasskeyLoginDone(env, e, m0, m);
    } else if l.Logout? {
      var m1 := Ending(env, e, m0, m, {s});
      Finish(env, e, m0, m1, m');
    } else if ReportedVerified(m.t, s) || !HasPasskey(m.t, m.t.sessions[s].account) {
      Finish(env, e, m0, m, m');
    } else {
      assert l.challenge in Names(e);
      var m1 := Asking(env, e, m0, m, s, ForLogin, l.challenge);
      Finish(env, e, m0, m1, m');
    }
  }

  // ---- Confirming -------------------------------------------------------------------------------------

  lemma AcceptedParts(t: Tables, env: Env, a: nat, code: seq<ascii>, now: nat)
    requires a in t.accounts && !IsTotpLocked(t.accounts[a], now) && CodeStep(env, t.accounts[a], code, now).Some?
    ensures var t1 := WithAccount(t, a, t.accounts[a].(lastStep := CodeStep(env, t.accounts[a], code, now)));
            VerifyConfirmCode(t, env, a, code, now) == (WithAccount(t1, a, t1.accounts[a].(failed := 0)), ConfirmOk)
  {
    var step := CodeStep(env, t.accounts[a], code, now);
    var t1 := WithAccount(t, a, t.accounts[a].(lastStep := step));
    assert WithAccount(t1, a, t1.accounts[a].(failed := 0)) == WithAccount(t, a,
        t.accounts[a].(lastStep := step, failed := 0));
  }

  lemma ConfirmByCodeDone(env: Env, e: Event, m0: Machine, m: Machine)
    requires Reaches(env, e, m0, m) && m.used == m0.used && e.Arrives? && e.r.ConfirmRequest? && e.r.c.ByCode?
    requires e.s in m.t.sessions && m.t.sessions[e.s].account in m.t.accounts
    ensures Done(env, e, m0, DoConfirm(m, env, e.s, e.r.c))
  {
    var s, code, a := e.s, e.r.c.code, m.t.sessions[e.s].account;
    var m' := DoConfirm(m, env, s, e.r.c);
    if IsTotpLocked(m.t.accounts[a], m.now) {
      Finish(env, e, m0, m, m');
    } else if CodeStep(env, m.t.accounts[a], code, m.now).Some? {
      var m1 := Accepting(env, e, m0, m, a, code);
      var m2 := Clearing(env, e, m0, m1, a, m.t.accounts[a].lockedUntil);
      var m3 := Confirming(env, e, m0, m2, s);
      AcceptedParts(m.t, env, a, code, m.now);
      Finish(env, e, m0, m3, m');
    } else if Redeemable(CodesOf(m.t, a), code) {
      var m1 := Redeeming(env, e, m0, m, a, code);
      var m2 := Confirming(env, e, m0, m1, s);
      Finish(env, e, m0, m2, m');
    } else {
      WrongCodeReaches(env, e, m0, m, a);
      Finish(env, e, m0, m.(t := RecordTotpFailure(m.t, a, m.now).0, h := Wrong(m.h, a, m.now)), m');
    }
  }

  lemma ConfirmDone(env: Env, e: Event, m0: Machine, m: Machine)
    requires Reaches(env, e, m0, m) && m.used == m0.used && Drawn(m0.used, e)
    requires e.Arrives? && e.r.ConfirmRequest?
    requires e.s in m.t.sessions && m.t.sessions[e.s].account in m.t.accounts
    ensures Done(env, e, m0, DoConfirm(m, env, e.s, e.r.c))
  {
    var s, c, a := e.s, e.r.c, m.t.sessions[e.s].account;
    var m' := DoConfirm(m, env, s, c);
    if c.ByCode? {
      ConfirmByCodeDone(env, e, m0, m);
    } else if c.ByPassword? {
      if HasSecondFactor(m.t, a) || !Authenticates(m.t, a, c.password) {
        Finish(env, e, m0, m, m');
      } else {
        var m1 := Confirming(env, e, m0, m, s);
        Finish(env, e, m0, m1, m');
      }
    } else if c.ConfirmOptions? {
      if !HasPasskey(m.t, a) {
        Finish(env, e, m0, m, m');
      } else {
        assert c.challenge in Names(e);
        var m1 := Asking(env, e, m0, m, s, ForConfirm, c.challenge);
        Finish(env, e, m0, m1, m');
      }
    } else {
      ConfirmByPasskeyDone(env, e, m0, m);
    }
  }

  lemma ConfirmByPasskeyDone(env: Env, e: Event, m0: Machine, m: Machine)
    requires Reaches(env, e, m0, m) && m.used == m0.used && e.Arrives? && e.r.ConfirmRequest? && e.r.c.WithPasskey?
    requires e.s in m.t.sessions && m.t.sessions[e.s].account in m.t.accounts
    ensures Done(env, e, m0, DoConfirm(m, env, e.s, e.r.c))
  {
    var s, c, a := e.s, e.r.c, m.t.sessions[e.s].account;
    var m' := DoConfirm(m, env, s, c);
    var (t1, error) := CheckAssertion(m.t, env, s, a, ForConfirm, c.credential, c.assertion, m.now);
    var m1 := m.(t := t1, h := Attempted(m.h, m.t, s));
    AssertionReaches(env, e, m0, m, s, a, ForConfirm, c.credential, c.assertion);
    if error.None? {
      var m2 := Confirming(env, e, m0, m1, s);
      Finish(env, e, m0, m2, m');
    } else {
      Finish(env, e, m0, m1, m');
    }
  }

  // ---- Second factors ---------------------------------------------------------------------------------

  /** The app is enabled, every session verified, the codes replaced: `confirmTotpEnrolment`. */
  lemma EnrolmentReaches(env: Env, e: Event, m0: Machine, m: Machine, a: nat, code: seq<ascii>, random: seq<seq<byte>>)
    requires Reaches(env, e, m0, m) && a in m.t.accounts && Draws(random) && ReplacesCodes(m.t, e, a)
    requires EnrolStep(env, m.t.accounts[a], code, m.now).Some? && AddsFactor(e)
    ensures Reaches(env, e, m0,
              m.(t := ConfirmTotpEnrolment(m.t, env, a, code, m.now, random).0,
                 h := Stepped(m.h, m.t.accounts[a].secret, EnrolStep(env, m.t.accounts[a], code, m.now), m.now)))
  {
    var m1 := Enabling(env, e, m0, m, a, code);
    var m2 := Verifying(env, e, m0, m1, SessionsOf(m.t, a));
    assert m2.t == VerifyAllSessions(m1.t, a);
    var m3 := Replacing(env, e, m0, m2, a, random);
  }

  /** Every other session of the account ends, and this one has proved its factor. */
  lemma ProvedHereReaches(env: Env, e: Event, m0: Machine, m: Machine, a: nat, s: nat)
    requires Reaches(env, e, m0, m) && AddsFactor(e) && e.s == s && s in m.t.sessions && m.t.sessions[s].account == a
    ensures Reaches(env, e, m0, m.(t := DestroyOtherSessions(m.t, a, s), h := m.h.(proved := m.h.proved + {s})))
  {
    var m1 := Ending(env, e, m0, m, SessionsOf(m.t, a) - {s});
    var m2 := Noting(env, e, m0, m1, {s}, {});
    assert m.h.pendingBorn + {} == m.h.pendingBorn;
  }

  lemma FinishAppDone(env: Env, e: Event, m0: Machine, m: Machine)
    requires Reaches(env, e, m0, m) && m.used == m0.used && Drawn(m0.used, e)
    requires e.Arrives? && e.r.FactorRequest? && e.r.f.FinishApp?
    requires e.s in m.t.sessions && m.t.sessions[e.s].account in m.t.accounts
    ensures Done(env, e, m0, DoFactor(m, env, e.s, e.r.f))
  {
    var s, f, a := e.s, e.r.f, m.t.sessions[e.s].account;
    var m' := DoFactor(m, env, s, f);
    if EnrolStep(env, m.t.accounts[a], f.code, m.now).None? {
      Finish(env, e, m0, m, m');
    } else {
      EnrolmentReaches(env, e, m0, m, a, f.code, f.random);
      var m1 := m.(t := ConfirmTotpEnrolment(m.t, env, a, f.code, m.now, f.random).0,
                   h := Stepped(m.h, m.t.accounts[a].secret, EnrolStep(env, m.t.accounts[a], f.code, m.now), m.now));
      ProvedHereReaches(env, e, m0, m1, a, s);
      Finish(env, e, m0, m1.(t := DestroyOtherSessions(m1.t, a, s), h := m1.h.(proved := m1.h.proved + {s})), m');
    }
  }

  lemma RegistrationParts(t: Tables, env: Env, s: nat, a: nat, input: W.RegistrationInput, now: nat, id: nat)
    requires s in t.sessions && RegistrationOutcome(t, env, s, a, input, now).Ok?
    ensures var reg := RegistrationOutcome(t, env, s, a, input, now).value;
            var taken := TakeChallenge(t, s);
            var saved := taken.(passkeys := taken.passkeys[reg.credentialId := Passkey(id, a, reg.publicKey,
                reg.algorithm, reg.signCount)]);
            && reg.credentialId !in t.passkeys
            && Pending(t, s, ForRegister, now).Some?
            && RegisterPasskey(t, env, s, a, input, now, id).0 == VerifySessions(saved, {s})
  {
    var reg := RegistrationOutcome(t, env, s, a, input, now).value;
    var taken := TakeChallenge(t, s);
    var saved := taken.(passkeys := taken.passkeys[reg.credentialId := Passkey(id, a, reg.publicKey, reg.algorithm,
        reg.signCount)]);
    assert WithSession(saved, s, saved.sessions[s].(verified := true)).sessions == VerifySessions(saved, {s}).sessions;
  }

  /** The challenge is spent, the passkey saved and the session verified: `registerPasskey`. */
  lemma RegistrationReaches(env: Env, e: Event, m0: Machine, m: Machine, s: nat, a: nat, input: W.RegistrationInput,
                            id: nat)
    requires Reaches(env, e, m0, m) && s in m.t.sessions && m.t.sessions[s].account == a && a in m.t.accounts
    requires AnswersFor(e, s, ForRegister)
    requires RegistrationOutcome(m.t, env, s, a, input, m.now).Ok? && id !in m.used
    ensures Reaches(env, e, m0, m.(t := RegisterPasskey(m.t, env, s, a, input, m.now, id).0,
                                   h := Attempted(m.h, m.t, s), used := m.used + {id}))
  {
    var reg := RegistrationOutcome(m.t, env, s, a, input, m.now).value;
    RegistrationParts(m.t, env, s, a, input, m.now, id);
    var m1 := Spending(env, e, m0, m, s, ForRegister);
    var m2 := Adding(env, e, m0, m1, reg.credentialId, Passkey(id, a, reg.publicKey, reg.algorithm, reg.signCount));
    var m3 := Verifying(env, e, m0, m2, {s});
  }

  lemma AddPasskeyDone(env: Env, e: Event, m0: Machine, m: Machine)
    requires Reaches(env, e, m0, m) && m.used == m0.used && Drawn(m0.used, e)
    requires e.Arrives? && e.r.FactorRequest? && e.r.f.AddPasskey?
    requires e.s in m.t.sessions && m.t.sessions[e.s].account in m.t.accounts
    ensures Done(env, e, m0, DoFactor(m, env, e.s, e.r.f))
  {
    var s, f, a := e.s, e.r.f, m.t.sessions[e.s].account;
    var m' := DoFactor(m, env, s, f);
    if RegistrationOutcome(m.t, env, s, a, f.registration, m.now).Err? {
      Finish(env, e, m0, m, m');
    } else {
      assert f.id in Names(e);
      RegistrationReaches(env, e, m0, m, s, a, f.registration, f.id);
      var m1 := m.(t := RegisterPasskey(m.t, env, s, a, f.registration, m.now, f.id).0, h := Attempted(m.h, m.t, s),
                   used := m.used + {f.id});
      RegisteredHasFactor(m.t, env, s, a, f.registration, m.now, f.id);
      ProvedHereReaches(env, e, m0, m1, a, s);
      var m2 := m1.(t := DestroyOtherSessions(m1.t, a, s), h := m1.h.(proved := m1.h.proved + {s}));
      if HasSecondFactor(m.t, a) {
        Finish(env, e, m0, m2, m');
      } else {
        var m3 := Replacing(env, e, m0, m2, a, f.random);
        Finish(env, e, m0, m3, m');
      }
    }
  }

  lemma RegisteredHasFactor(t: Tables, env: Env, s: nat, a: nat, input: W.RegistrationInput, now: nat, id: nat)
    requires RegistrationOutcome(t, env, s, a, input, now).Ok?
    ensures RegisterPasskey(t, env, s, a, input, now, id).1.None?
    ensures HasPasskey(RegisterPasskey(t, env, s, a, input, now, id).0, a)
    ensures RegisterPasskey(t, env, s, a, input, now, id).0.accounts == t.accounts
  {
    var t' := RegisterPasskey(t, env, s, a, input, now, id).0;
    assert t'.passkeys[RegistrationOutcome(t, env, s, a, input, now).value.credentialId].account == a;
  }

  lemma ForceDisableParts(t: Tables, a: nat, keep: Option<nat>)
    requires a in t.accounts
    ensures var t1 := WithAccount(t, a, t.accounts[a].(failed := 0, lockedUntil := None));
            var cleared := t1.accounts[a].(secret := None, enabledAt := None, lastStep := None);
            var t2 := DropRecoveryCodesIfUnused(WithAccount(t1, a, cleared), a);
            ForceDisableTotp(t, a, keep) == EndSessions(t2, SessionsOf(t, a) - (if keep.Some? then {keep.value} else {}))
  {
    var t1 := WithAccount(t, a, t.accounts[a].(failed := 0, lockedUntil := None));
    assert WithAccount(t1, a, t1.accounts[a].(secret := None, enabledAt := None, lastStep := None))
        == WithAccount(t, a, t.accounts[a].(secret := None, enabledAt := None, lastStep := None, failed := 0,
                                            lockedUntil := None));
  }

  /** Clearing the app and the failure count, then ending every session but the one kept. */
  lemma ForceDisableReaches(env: Env, e: Event, m0: Machine, m: Machine, a: nat, keep: Option<nat>)
    requires Reaches(env, e, m0, m) && a in m.t.accounts && MayClear(e)
    requires MayEndAll(m.t, e, m.now, SessionsOf(m.t, a) - (if keep.Some? then {keep.value} else {}))
    ensures Reaches(env, e, m0, m.(t := ForceDisableTotp(m.t, a, keep), h := Reset(m.h, a)))
  {
    var m1 := Clearing(env, e, m0, m, a, None);
    var m2 := Unenrolling(env, e, m0, m1, a);
    var m3 := Ending(env, e, m0, m2, SessionsOf(m.t, a) - (if keep.Some? then {keep.value} else {}));
    ForceDisableParts(m.t, a, keep);
  }

  lemma DisableAppDone(env: Env, e: Event, m0: Machine, m: Machine)
    requires Reaches(env, e, m0, m) && m.used == m0.used && e.Arrives? && e.r.FactorRequest? && e.r.f.DisableApp?
    requires e.s in m.t.sessions && m.t.sessions[e.s].account in m.t.accounts
    ensures Done(env, e, m0, DoFactor(m, env, e.s, e.r.f))
  {
    var s, code, a := e.s, e.r.f.code, m.t.sessions[e.s].account;
    var m' := DoFactor(m, env, s, e.r.f);
    if (env.requireTotp && !HasPasskey(m.t, a)) || !DisableTotp(m.t, env, a, code, s, m.now).1 {
      Finish(env, e, m0, m, m');
    } else {
      var m1 := AfterCode(m, env, a, code);
      CodeReaches(env, e, m0, m, a, code);
      ForceDisableReaches(env, e, m0, m1, a, Some(s));
      DisableParts(m, env, a, code, s);
      Finish(env, e, m0, m1.(t := ForceDisableTotp(m1.t, a, Some(s)), h := Reset(m1.h, a)), m');
    }
  }

  lemma DisableParts(m: Machine, env: Env, a: nat, code: seq<ascii>, s: nat)
    requires a in m.t.accounts && CodeOk(m, env, a, code)
    requires DisableTotp(m.t, env, a, code, s, m.now).1
    ensures ForceDisableTotp(AfterCode(m, env, a, code).t, a, Some(s)) == DisableTotp(m.t, env, a, code, s, m.now).0
  {
    var t1 := AfterCode(m, env, a, code).t;
    if CodeStep(env, m.t.accounts[a], code, m.now).Some? {
      var cleared := m.t.accounts[a].(secret := None, enabledAt := None, lastStep := None, failed := 0,
                                      lockedUntil := None);
      assert WithAccount(t1, a, cleared) == WithAccount(m.t, a, cleared);
    }
  }

  lemma ResetParts(t: Tables, a: nat)
    requires a in t.accounts
    ensures ResetSecondFactors(t, a)
         == ForceDisableTotp(DropRecoveryCodesIfUnused(t.(passkeys := t.passkeys - PasskeysOf(t, a)), a), a, None)
  {
    assert t.passkeys - PasskeysOf(t, a) == WithoutPasskeysOf(t, a).passkeys;
  }

  lemma ResetReaches(env: Env, e: Event, m0: Machine, m: Machine, a: nat)
    requires Reaches(env, e, m0, m) && a in m.t.accounts && MayClear(e)
    requires (e.CliDisableTotp? && e.a == a) || EndsAccount(e, a)
    ensures Reaches(env, e, m0, m.(t := ResetSecondFactors(m.t, a), h := Reset(m.h, a)))
  {
    var m1 := Dropping(env, e, m0, m, a, PasskeysOf(m.t, a));
    ForceDisableReaches(env, e, m0, m1, a, None);
    ResetParts(m.t, a);
  }

  lemma FactorDone(env: Env, e: Event, m0: Machine, m: Machine)
    requires Reaches(env, e, m0, m) && m.used == m0.used && Drawn(m0.used, e)
    requires e.Arrives? && e.r.FactorRequest?
    requires e.s in m.t.sessions && m.t.sessions[e.s].account in m.t.accounts
    ensures Done(env, e, m0, DoFactor(m, env, e.s, e.r.f))
  {
    var f := e.r.f;
    if f.FinishApp? {
      FinishAppDone(env, e, m0, m);
    } else if f.AddPasskey? {
      AddPasskeyDone(env, e, m0, m);
    } else if f.DisableApp? {
      DisableAppDone(env, e, m0, m);
    } else if f.NewCodes? || f.ConfirmedNewCodes? {
      NewCodesDone(env, e, m0, m);
    } else {
      SmallFactorDone(env, e, m0, m);
    }
  }

  lemma NewCodesDone(env: Env, e: Event, m0: Machine, m: Machine)
    requires Reaches(env, e, m0, m) && m.used == m0.used && Drawn(m0.used, e)
    requires e.Arrives? && e.r.FactorRequest? && (e.r.f.NewCodes? || e.r.f.ConfirmedNewCodes?)
    requires e.s in m.t.sessions && m.t.sessions[e.s].account in m.t.accounts
    ensures Done(env, e, m0, DoFactor(m, env, e.s, e.r.f))
  {
    var s, f, a := e.s, e.r.f, m.t.sessions[e.s].account;
    var m' := DoFactor(m, env, s, f);
    if f.NewCodes? && CodeStep(env, m.t.accounts[a], f.code, m.now).Some? {
      var m1 := Accepting(env, e, m0, m, a, f.code);
      var m2 := Replacing(env, e, m0, m1, a, f.random);
      Finish(env, e, m0, m2, m');
    } else if f.ConfirmedNewCodes? && HasSecondFactor(m.t, a) {
      var m1 := Replacing(env, e, m0, m, a, f.random);
      Finish(env, e, m0, m1, m');
    } else {
      Finish(env, e, m0, m, m');
    }
  }

  lemma SmallFactorDone(env: Env, e: Event, m0: Machine, m: Machine)
    requires Reaches(env, e, m0, m) && m.used == m0.used && Drawn(m0.used, e)
    requires e.Arrives? && e.r.FactorRequest? && (e.r.f.BeginApp? || e.r.f.PasskeyOptions? || e.r.f.DropPasskey?)
    requires e.s in m.t.sessions && m.t.sessions[e.s].account in m.t.accounts
    ensures Done(env, e, m0, DoFactor(m, env, e.s, e.r.f))
  {
    var s, f, a := e.s, e.r.f, m.t.sessions[e.s].account;
    var m' := DoFactor(m, env, s, f);
    if m' == m {
      Finish(env, e, m0, m, m');
    } else if f.BeginApp? {
      assert f.secret in Names(e);
      var m1 := Enrolling(env, e, m0, m, a, f.secret);
      Finish(env, e, m0, m1, m');
    } else if f.PasskeyOptions? {
      assert f.challenge in Names(e);
      var m1 := Asking(env, e, m0, m, s, ForRegister, f.challenge);
      Finish(env, e, m0, m1, m');
    } else {
      var m1 := Dropping(env, e, m0, m, a, Owned(m.t, a, f.id));
      var m2 := Ending(env, e, m0, m1, SessionsOf(m1.t, a) - {s});
      Finish(env, e, m0, m2, m');
    }
  }

  // ---- Sessions and accounts --------------------------------------------------------------------------

  lemma SessionDone(env: Env, e: Event, m0: Machine, m: Machine)
    requires Reaches(env, e, m0, m) && m.used == m0.used && Drawn(m0.used, e)
    requires e.Arrives? && e.r.SessionRequest?
    requires e.s in m.t.sessions && m.t.sessions[e.s].account in m.t.accounts
    ensures Done(env, e, m0, DoSession(m, e.s, e.r.x))
  {
    var s, x, a := e.s, e.r.x, m.t.sessions[e.s].account;
    var m' := DoSession(m, s, x);
    if m' == m {
      Finish(env, e, m0, m, m');
    } else if x.ChangePassword? {
      var m1 := Editing(env, e, m0, m, a, m.t.accounts[a].(password := x.next, mustChange := false));
      var m2 := Ending(env, e, m0, m1, SessionsOf(m1.t, a) - {s});
      Finish(env, e, m0, m2, m');
    } else if x.RevokeOthers? {
      var m1 := Ending(env, e, m0, m, SessionsOf(m.t, a) - {s});
      Finish(env, e, m0, m1, m');
    } else if x.RevokeOne? {
      var gone := set q | q in m.t.sessions && m.t.sessions[q].account == a && m.t.sessions[q].publicId == x.publicId;
      var m1 := Ending(env, e, m0, m, gone);
      Finish(env, e, m0, m1, m');
    } else if x.LoadPage? {
      assert x.challenge in Names(e);
      var m1 := Offering(env, e, m0, m, s, x.challenge);
      Finish(env, e, m0, m1, m');
    } else {
      assert x.binding in Names(e) && x.cookie in Names(e);
      var m1 := BindingMove(env, e, m0, m, s, x.proof, x.binding, x.cookie);
      Finish(env, e, m0, m1, m');
    }
  }

  lemma UserDone(env: Env, e: Event, m0: Machine, m: Machine, actor: nat)
    requires Reaches(env, e, m0, m) && m.used == m0.used && Drawn(m0.used, e)
    requires e.Arrives? && e.r.UserRequest?
    ensures Done(env, e, m0, DoUser(m, actor, e.r.u))
  {
    var u, a := e.r.u, e.r.u.a;
    var m' := DoUser(m, actor, u);
    if u.AddUser? {
      assert a in Names(e);
      var m1 := Creating(env, e, m0, m, a, NewAccount(u.password, u.role, true));
      Finish(env, e, m0, m1, m');
    } else if m' == m {
      Finish(env, e, m0, m, m');
    } else if u.ResetFactors? {
      ResetReaches(env, e, m0, m, a);
      Finish(env, e, m0, m.(t := ResetSecondFactors(m.t, a), h := Reset(m.h, a)), m');
    } else if u.Remove? {
      var m1 := Ending(env, e, m0, m, SessionsOf(m.t, a));
      var m2 := Deleting(env, e, m0, m1, a);
      assert m2.t.passkeys == WithoutPasskeysOf(m.t, a).passkeys;
      Finish(env, e, m0, m2, m');
    } else {
      UserEditDone(env, e, m0, m, actor);
    }
  }

  lemma UserEditDone(env: Env, e: Event, m0: Machine, m: Machine, actor: nat)
    requires Reaches(env, e, m0, m) && m.used == m0.used && e.Arrives? && e.r.UserRequest?
    requires e.r.u.ChangeRole? || e.r.u.NewPassword? || e.r.u.Disable? || e.r.u.Enable?
    requires DoUser(m, actor, e.r.u) != m
    ensures Done(env, e, m0, DoUser(m, actor, e.r.u))
  {
    var u, a := e.r.u, e.r.u.a;
    var m' := DoUser(m, actor, u);
    if u.Disable? {
      var m1 := Ending(env, e, m0, m, SessionsOf(m.t, a));
      assert SessionsOf(m1.t, a) == {} && ActiveAdmins(m1.t) == ActiveAdmins(m.t);
      var m2 := Editing(env, e, m0, m1, a, m'.t.accounts[a]);
      Finish(env, e, m0, m2, m');
    } else {
      var m1 := Editing(env, e, m0, m, a, m'.t.accounts[a]);
      if u.NewPassword? {
        var m2 := Ending(env, e, m0, m1, SessionsOf(m.t, a));
        Finish(env, e, m0, m2, m');
      } else {
        Finish(env, e, m0, m1, m');
      }
    }
  }

  // ---- Every step -------------------------------------------------------------------------------------

  lemma ChallengedParts(m: Machine, b: nat, proof: Option<Proof>, cookie: nat, challenge: nat)
    requires RefreshBinding(m.t, b, proof, cookie, challenge, m.now).1.Challenged?
    ensures b in m.t.bindings
    ensures DoRefresh(m, b, proof, cookie, challenge)
            == m.(t := m.t.(bindings := m.t.bindings[b := Rechallenged(m.t.bindings[b], m.now, challenge)]),
                  h := m.h.(deviceChallenges := m.h.deviceChallenges[challenge := IssuedFor(b)]))
  {
  }

  lemma ChallengedDone(env: Env, e: Event, m: Machine)
    requires Drawn(m.used, e) && e.Refresh?
    requires RefreshBinding(m.t, e.b, e.proof, e.cookie, e.challenge, m.now).1.Challenged?
    ensures Done(env, e, m, DoRefresh(m, e.b, e.proof, e.cookie, e.challenge))
  {
    Stays(env, e, m);
    assert e.challenge in Names(e);
    ChallengedParts(m, e.b, e.proof, e.cookie, e.challenge);
    var m1 := Rechallenging(env, e, m, m, e.b, e.challenge);
    Finish(env, e, m, m1, DoRefresh(m, e.b, e.proof, e.cookie, e.challenge));
  }

  lemma RenewedDone(env: Env, e: Event, m: Machine)
    requires Drawn(m.used, e) && e.Refresh?
    requires RefreshBinding(m.t, e.b, e.proof, e.cookie, e.challenge, m.now).1.Renewed?
    ensures Done(env, e, m, DoRefresh(m, e.b, e.proof, e.cookie, e.challenge))
  {
    Stays(env, e, m);
    assert e.cookie in Names(e) && e.challenge in Names(e);
    var m1 := Renewing(env, e, m, m, e.b, e.proof.value, e.cookie, e.challenge);
    Finish(env, e, m, m1, DoRefresh(m, e.b, e.proof, e.cookie, e.challenge));
  }

  lemma RefreshDone(env: Env, e: Event, m: Machine)
    requires Drawn(m.used, e) && e.Refresh?
    ensures Done(env, e, m, DoRefresh(m, e.b, e.proof, e.cookie, e.challenge))
  {
    var r := RefreshBinding(m.t, e.b, e.proof, e.cookie, e.challenge, m.now).1;
    if r.Challenged? {
      ChallengedDone(env, e, m);
    } else if r.Renewed? {
      RenewedDone(env, e, m);
    } else {
      Stays(env, e, m);
      Finish(env, e, m, m, DoRefresh(m, e.b, e.proof, e.cookie, e.challenge));
    }
  }

  lemma RequestDone(env: Env, e: Event, m0: Machine, m: Machine)
    requires Reaches(env, e, m0, m) && m.used == m0.used && Drawn(m0.used, e) && e.Arrives?
    requires e.s in m.t.sessions && m.t.sessions[e.s].account in m.t.accounts
    requires m.t.accounts[m.t.sessions[e.s].account].disabledAt.None?
    ensures Done(env, e, m0, DoRequest(m, env, e.s, e.r))
  {
    if e.r.LoginRequest? {
      LoginDone(env, e, m0, m);
    } else if e.r.ConfirmRequest? {
      ConfirmDone(env, e, m0, m);
    } else if e.r.FactorRequest? {
      FactorDone(env, e, m0, m);
    } else if e.r.SessionRequest? {
      SessionDone(env, e, m0, m);
    } else if e.r.UserRequest? {
      UserDone(env, e, m0, m, m.t.sessions[e.s].account);
    } else {
      Finish(env, e, m0, m, DoRequest(m, env, e.s, e.r));
    }
  }

  lemma ArrivalDone(env: Env, e: Event, m: Machine)
    requires Drawn(m.used, e) && e.Arrives?
    ensures Done(env, e, m, Handle(m, env, e))
  {
    var (t1, passed) := Gate(m.t, e.s, e.bound, m.now);
    var m1 := m.(t := t1);
    Stays(env, e, m);
    if t1 != m.t {
      var m2 := Ending(env, e, m, m, {e.s});
    }
    if passed && Admitted(t1, env, e.s, m.now, e.r) {
      RequestDone(env, e, m, m1);
    } else {
      Finish(env, e, m, m1, m1);
    }
  }

  lemma CliDone(env: Env, e: Event, m: Machine)
    requires Drawn(m.used, e) && (e.Purge? || e.CliCreateAdmin? || e.CliResetPassword? || e.CliDisableTotp?)
    ensures Done(env, e, m, Handle(m, env, e))
  {
    var m' := Handle(m, env, e);
    Stays(env, e, m);
    if m' == m {
      Finish(env, e, m, m, m');
    } else if e.Purge? {
      var m1 := Ending(env, e, m, m, ExpiredSessions(m.t, m.now));
      Finish(env, e, m, m1, m');
    } else if e.CliCreateAdmin? {
      assert e.a in Names(e);
      var m1 := Creating(env, e, m, m, e.a, NewAccount(e.password, Admin, false));
      Finish(env, e, m, m1, m');
    } else if e.CliResetPassword? {
      var m1 := Editing(env, e, m, m, e.a, m'.t.accounts[e.a]);
      var m2 := Ending(env, e, m, m1, SessionsOf(m.t, e.a));
      Finish(env, e, m, m2, m');
    } else {
      ResetReaches(env, e, m, m, e.a);
      Finish(env, e, m, m.(t := ResetSecondFactors(m.t, e.a), h := Reset(m.h, e.a)), m');
    }
  }

  /** Every step of the panel is a sequence of moves. */
  lemma StepIsMoves(env: Env, e: Event, m: Machine)
    requires Drawn(m.used, e)
    ensures Reaches(env, e, m, Panel.Step(m, env, e))
  {
    if e.Arrives? {
      ArrivalDone(env, e, m);
    } else if e.SignIn? {
      Stays(env, e, m);
      SignInDone(env, e, m, m);
    } else if e.Refresh? {
      RefreshDone(env, e, m);
    } else if e.Tick? {
      Stays(env, e, m);
      var m1 := Passing(env, e, m, m, e.ms);
      Finish(env, e, m, m1, Handle(m, env, e));
    } else {
      CliDone(env, e, m);
    }
  }
}
