/**
 * Sessions and second factors. A session that counts as verified on an account with a second
 * factor has proved one itself; a session that began without its second factor never becomes
 * the privileged one, whatever factors are added or removed meanwhile.
 */
module PanelFactors {
  import opened Common
  import opened Base32
  import opened Tables
  import opened Auth
  import opened Passkeys
  import opened Bindings
  import opened Users
  import opened Panel
  import opened PanelMoves
  import opened PanelSteps
  import W = WebAuthn

  predicate SessionOk(row: Session, s: nat, t: Tables, h: History) {
    && row.account in t.accounts
    && (HasSecondFactor(t, row.account) && row.verified ==> s in h.proved)
    && (!row.verified ==> HasSecondFactor(t, row.account))
    && (s in h.pendingBorn ==> !row.verified)
  }

  predicate SessionsOk(t: Tables, h: History) {
    forall s :: s in t.sessions ==> SessionOk(t.sessions[s], s, t, h)
  }

  predicate OwnersExist(t: Tables) {
    forall c :: c in t.passkeys ==> t.passkeys[c].account in t.accounts
  }

  predicate KnownNames(t: Tables, h: History, used: set<nat>) {
    t.accounts.Keys <= used && t.sessions.Keys <= used && h.pendingBorn <= used
  }

  predicate Inv(m: Machine) {
    SessionsOk(m.t, m.h) && OwnersExist(m.t) && KnownNames(m.t, m.h, m.used)
  }

  // ---- Ways of changing the tables that keep the invariant --------------------------------------------

  lemma EndingKeeps(t: Tables, h: History, gone: set<nat>)
    requires SessionsOk(t, h)
    ensures SessionsOk(EndSessions(t, gone), h)
  {
    var t' := EndSessions(t, gone);
    forall s | s in t'.sessions ensures SessionOk(t'.sessions[s], s, t', h) {
      assert SessionOk(t.sessions[s], s, t, h);
    }
  }

  /** Account columns other than the enabled date do not matter here. */
  lemma AccountKeeps(t: Tables, h: History, a: nat, acc: Account)
    requires SessionsOk(t, h) && a in t.accounts && acc.enabledAt == t.accounts[a].enabledAt
    ensures SessionsOk(WithAccount(t, a, acc), h)
  {
    var t' := WithAccount(t, a, acc);
    forall s | s in t'.sessions ensures SessionOk(t'.sessions[s], s, t', h) {
      assert SessionOk(t.sessions[s], s, t, h);
    }
  }

  /** Session columns other than the account and the verified flag do not matter here. */
  lemma SessionKeeps(t: Tables, h: History, s: nat, row: Session)
    requires SessionsOk(t, h) && s in t.sessions
    requires row.account == t.sessions[s].account && row.verified == t.sessions[s].verified
    ensures SessionsOk(WithSession(t, s, row), h)
  {
    var t' := WithSession(t, s, row);
    forall q | q in t'.sessions ensures SessionOk(t'.sessions[q], q, t', h) {
      assert SessionOk(t.sessions[q], q, t, h);
    }
  }

  lemma CodesAndBindingsKeep(t: Tables, h: History, t': Tables)
    requires SessionsOk(t, h) && t'.sessions == t.sessions && t'.accounts == t.accounts && t'.passkeys == t.passkeys
    ensures SessionsOk(t', h)
  {
    forall s | s in t'.sessions ensures SessionOk(t'.sessions[s], s, t', h) {
      assert SessionOk(t.sessions[s], s, t, h);
    }
  }

  /** A counter update keeps every owner. */
  lemma CounterKeepsOwners(t: Tables, c: seq<byte>, count: nat)
    requires c in t.passkeys
    ensures forall a :: Owns(t.passkeys[c := t.passkeys[c].(signCount := count)], a) <==> Owns(t.passkeys, a)
  {
    var p' := t.passkeys[c := t.passkeys[c].(signCount := count)];
    forall a ensures Owns(p', a) <==> Owns(t.passkeys, a) {
      if Owns(t.passkeys, a) {
        var k :| k in t.passkeys && t.passkeys[k].account == a;
        assert k in p' && p'[k].account == a;
      }
    }
  }

  lemma SameOwnersKeep(t: Tables, h: History, t': Tables)
    requires SessionsOk(t, h) && t'.sessions == t.sessions && t'.accounts == t.accounts
    requires forall a :: Owns(t'.passkeys, a) <==> Owns(t.passkeys, a)
    ensures SessionsOk(t', h)
  {
    forall s | s in t'.sessions ensures SessionOk(t'.sessions[s], s, t', h) {
      assert SessionOk(t.sessions[s], s, t, h);
    }
  }

  lemma HistoryKeeps(t: Tables, h: History, h': History)
    requires SessionsOk(t, h) && h.proved <= h'.proved && h'.pendingBorn == h.pendingBorn
    ensures SessionsOk(t, h')
  {
    forall s | s in t.sessions ensures SessionOk(t.sessions[s], s, t, h') {
      assert SessionOk(t.sessions[s], s, t, h);
    }
  }

  /** A new session that has proved its factor, or one that needs none, or one that is pending. */
  lemma BirthKeeps(t: Tables, h: History, s: nat, row: Session)
    requires SessionsOk(t, h) && s !in t.sessions && SessionOk(row, s, t, h)
    ensures SessionsOk(WithSession(t, s, row), h)
  {
    var t' := WithSession(t, s, row);
    forall q | q in t'.sessions ensures SessionOk(t'.sessions[q], q, t', h) {
      if q != s {
        assert SessionOk(t.sessions[q], q, t, h);
      }
    }
  }

  lemma FailureKeeps(t: Tables, h: History, a: nat, now: nat)
    requires SessionsOk(t, h) && a in t.accounts
    ensures SessionsOk(RecordTotpFailure(t, a, now).0, h)
  {
    var acc := t.accounts[a];
    AccountKeeps(t, h, a, acc.(failed := 0, lockedUntil := Some(now + TOTP_ACCOUNT_LOCK_MS)));
    AccountKeeps(t, h, a, acc.(failed := acc.failed + 1));
    EndingKeeps(WithAccount(t, a, acc.(failed := 0, lockedUntil := Some(now + TOTP_ACCOUNT_LOCK_MS))), h,
                PendingSessionsOf(t, a));
  }

  lemma CompletionKeeps(t: Tables, h: History, env: Env, pending: nat, a: nat, s: nat, publicId: nat, now: nat,
                        factor: Factor)
    requires SessionsOk(t, h) && a in t.accounts && s !in t.sessions && s in h.proved && s !in h.pendingBorn
    ensures SessionsOk(CompleteSecondFactor(t, env, pending, a, s, publicId, now, factor), h)
  {
    var reset := WithAccount(t, a, t.accounts[a].(failed := 0, lockedUntil := None));
    AccountKeeps(t, h, a, t.accounts[a].(failed := 0, lockedUntil := None));
    EndingKeeps(reset, h, {pending});
    var row := CompleteSecondFactor(t, env, pending, a, s, publicId, now, factor).sessions[s];
    BirthKeeps(EndSessions(reset, {pending}), h, s, row);
    assert CompleteSecondFactor(t, env, pending, a, s, publicId, now, factor) == WithSession(EndSessions(reset,
        {pending}), s, row);
  }

  lemma ConfirmedKeeps(t: Tables, h: History, env: Env, s: nat, now: nat)
    requires SessionsOk(t, h)
    ensures SessionsOk(MarkConfirmed(t, env, s, now), h)
  {
    if s in t.sessions {
      SessionKeeps(t, h, s, t.sessions[s].(confirmedUntil := Some(now + env.reauthWindowMs)));
    }
  }

  // ---- Handlers ---------------------------------------------------------------------------------------

  /** Tables and history after a step, against the names drawn so far. */
  predicate Good(t: Tables, h: History, used: set<nat>) {
    SessionsOk(t, h) && OwnersExist(t) && KnownNames(t, h, used)
  }

  lemma ReportedIsStored(t: Tables, h: History, s: nat)
    requires SessionsOk(t, h) && s in t.sessions && ReportedVerified(t, s)
    ensures t.sessions[s].verified && s !in h.pendingBorn
  {
    assert SessionOk(t.sessions[s], s, t, h);
  }

  lemma SignInKeeps(m: Machine, env: Env, a: nat, password: string, born: nat, publicId: nat)
    requires Inv(m) && born !in m.used
    ensures var m' := DoSignIn(m, env, a, password, born, publicId); Good(m'.t, m'.h, m.used + {born, publicId})
  {
    if Authenticates(m.t, a, password) {
      var h' := DoSignIn(m, env, a, password, born, publicId).h;
      var t1 := CreateSession(m.t, env, a, born, publicId, m.now);
      forall s | s in m.t.sessions ensures SessionOk(m.t.sessions[s], s, m.t, h') {
        assert SessionOk(m.t.sessions[s], s, m.t, m.h);
      }
      BirthKeeps(m.t, h', born, t1.sessions[born]);
      ConfirmedKeeps(t1, h', env, born, m.now);
    }
  }

  lemma AssertionKeeps(t: Tables, h: History, env: Env, s: nat, a: nat, purpose: Purpose, credential: seq<byte>,
                       input: W.AssertionInput, now: nat)
    requires SessionsOk(t, h) && OwnersExist(t)
    ensures var t' := CheckAssertion(t, env, s, a, purpose, credential, input, now).0;
            SessionsOk(t', h) && OwnersExist(t') && t'.accounts == t.accounts && t'.sessions.Keys == t.sessions.Keys
  {
    var taken := TakeChallenge(t, s);
    if s in t.sessions {
      SessionKeeps(t, h, s, t.sessions[s].(ceremony := None));
    }
    var t' := CheckAssertion(t, env, s, a, purpose, credential, input, now).0;
    var outcome := AssertionOutcome(t, env, s, a, purpose, credential, input, now);
    if outcome.Ok? && credential in taken.passkeys {
      CounterKeepsOwners(taken, credential, outcome.value);
      SameOwnersKeep(taken, h, t');
    }
  }

  lemma CeremonyKeeps(t: Tables, h: History, s: nat, purpose: Purpose, challenge: nat, now: nat)
    requires SessionsOk(t, h)
    ensures SessionsOk(BeginCeremony(t, s, purpose, challenge, now), h)
  {
    if s in t.sessions {
      SessionKeeps(t, h, s, t.sessions[s].(ceremony := Some(Ceremony(challenge, purpose, now + CEREMONY_TTL_MS))));
    }
  }

  lemma PasskeyLoginKeeps(m: Machine, env: Env, s: nat, l: LoginStep)
    requires Inv(m) && s in m.t.sessions && m.t.sessions[s].account in m.t.accounts
    requires l.LoginPasskey? && l.born !in m.used
    ensures var m' := DoLogin(m, env, s, l); Good(m'.t, m'.h, m.used + {l.born})
  {
    var a, m' := m.t.sessions[s].account, DoLogin(m, env, s, l);
    if !ReportedVerified(m.t, s) {
      PasskeyLogin(m, env, s, l);
      HistoryKeeps(m.t, m.h, m'.h);
      AssertionKeeps(m.t, m'.h, env, s, a, ForLogin, l.credential, l.assertion, m.now);
      var (checked, error) := CheckAssertion(m.t, env, s, a, ForLogin, l.credential, l.assertion, m.now);
      if error.None? {
        PasskeyCompletionKeeps(checked, m'.h, env, s, a, l, m.now);
      }
    }
  }

  lemma PasskeyLogin(m: Machine, env: Env, s: nat, l: LoginStep)
    requires s in m.t.sessions && m.t.sessions[s].account in m.t.accounts && l.LoginPasskey? && !ReportedVerified(m.t, s)
    ensures var a, m' := m.t.sessions[s].account, DoLogin(m, env, s, l);
            var (checked, error) := CheckAssertion(m.t, env, s, a, ForLogin, l.credential, l.assertion, m.now);
            && m'.t == (if error.Some? then checked else AfterPasskey(checked, env, s, a, l, m.now))
            && m'.h.pendingBorn == m.h.pendingBorn && m.h.proved <= m'.h.proved
            && (error.None? ==> l.born in m'.h.proved)
  {
    AssertionKeepsAccounts(m.t, env, s, m.t.sessions[s].account, ForLogin, l.credential, l.assertion, m.now);
  }

  function AfterPasskey(t: Tables, env: Env, s: nat, a: nat, l: LoginStep, now: nat): Tables
    requires a in t.accounts && l.LoginPasskey?
  {
    MarkConfirmed(CompleteSecondFactor(t, env, s, a, l.born, l.publicId, now, ByPasskey), env, l.born, now)
  }

  lemma AssertionKeepsAccounts(t: Tables, env: Env, s: nat, a: nat, purpose: Purpose, credential: seq<byte>,
                               input: W.AssertionInput, now: nat)
    ensures CheckAssertion(t, env, s, a, purpose, credential, input, now).0.accounts == t.accounts
  {
  }

  lemma PasskeyCompletionKeeps(t: Tables, h: History, env: Env, s: nat, a: nat, l: LoginStep, now: nat)
    requires SessionsOk(t, h) && OwnersExist(t) && a in t.accounts && l.LoginPasskey?
    requires l.born !in t.sessions && l.born in h.proved && l.born !in h.pendingBorn
    ensures var t' := AfterPasskey(t, env, s, a, l, now);
            && SessionsOk(t', h) && OwnersExist(t') && t'.accounts.Keys == t.accounts.Keys
            && t'.sessions.Keys <= t.sessions.Keys + {l.born}
  {
    CompletionKeeps(t, h, env, s, a, l.born, l.publicId, now, ByPasskey);
    ConfirmedKeeps(CompleteSecondFactor(t, env, s, a, l.born, l.publicId, now, ByPasskey), h, env, l.born, now);
  }

  lemma CodeRequestKeeps(m: Machine, env: Env, s: nat, l: LoginStep)
    requires Inv(m) && s in m.t.sessions && m.t.sessions[s].account in m.t.accounts
    requires l.LoginCode? && l.born !in m.used
    ensures var m' := DoLogin(m, env, s, l); Good(m'.t, m'.h, m.used + {l.born})
  {
    var m' := DoLogin(m, env, s, l);
    if !ReportedVerified(m.t, s) {
      var (t1, r) := VerifySessionTotp(m.t, env, s, l.code, m.now, l.born, l.publicId);
      LoginHistory(m, env, s, l);
      HistoryKeeps(m.t, m.h, m'.h);
      CodeLoginKeeps(m.t, m'.h, env, s, l.code, m.now, l.born, l.publicId);
      ConfirmedKeeps(t1, m'.h, env, l.born, m.now);
      assert m'.t == if r.LoginOk? then MarkConfirmed(t1, env, l.born, m.now) else t1;
    }
  }

  /** A code that signs in is recorded as proved by the session it starts. */
  lemma LoginHistory(m: Machine, env: Env, s: nat, l: LoginStep)
    requires s in m.t.sessions && m.t.sessions[s].account in m.t.accounts && l.LoginCode? && !ReportedVerified(m.t, s)
    ensures var h' := DoLogin(m, env, s, l).h;
            && m.h.proved <= h'.proved && h'.pendingBorn == m.h.pendingBorn
            && (VerifySessionTotp(m.t, env, s, l.code, m.now, l.born, l.publicId).1.LoginOk? ==> l.born in h'.proved)
  {
  }

  lemma LoginKeeps(m: Machine, env: Env, s: nat, l: LoginStep)
    requires Inv(m) && s in m.t.sessions && m.t.sessions[s].account in m.t.accounts
    requires l.LoginPasskey? || l.LoginCode? ==> l.born !in m.used
    ensures var m' := DoLogin(m, env, s, l);
            Good(m'.t, m'.h, m.used + (if l.LoginPasskey? || l.LoginCode? then {l.born} else {}))
  {
    if l.Logout? {
      EndingKeeps(m.t, m.h, {s});
    } else if l.LoginOptions? {
      CeremonyKeeps(m.t, m.h, s, ForLogin, l.challenge, m.now);
      HistoryKeeps(DoLogin(m, env, s, l).t, m.h, DoLogin(m, env, s, l).h);
    } else if l.LoginPasskey? {
      PasskeyLoginKeeps(m, env, s, l);
    } else {
      CodeRequestKeeps(m, env, s, l);
    }
  }

  lemma CodeLoginKeeps(t: Tables, h: History, env: Env, s: nat, code: seq<ascii>, now: nat, born: nat, publicId: nat)
    requires SessionsOk(t, h) && s in t.sessions && born !in t.sessions && born !in h.pendingBorn
    requires VerifySessionTotp(t, env, s, code, now, born, publicId).1.LoginOk? ==> born in h.proved
    ensures var (t', r) := VerifySessionTotp(t, env, s, code, now, born, publicId);
            && SessionsOk(t', h) && t'.passkeys == t.passkeys && t'.accounts.Keys == t.accounts.Keys
            && t'.sessions.Keys <= t.sessions.Keys + {born}
  {
    var a := t.sessions[s].account;
    if a in t.accounts && HasSecondFactor(t, a) && !IsTotpLocked(t.accounts[a], now) {
      var step := CodeStep(env, t.accounts[a], code, now);
      var (consumed, ok) := ConsumeRecoveryCode(t, a, code);
      if step.Some? {
        AccountKeeps(t, h, a, t.accounts[a].(lastStep := step));
        CompletionKeeps(WithAccount(t, a, t.accounts[a].(lastStep := step)), h, env, s, a, born, publicId, now, ByTotp);
      } else if ok {
        CodesAndBindingsKeep(t, h, consumed);
        CompletionKeeps(consumed, h, env, s, a, born, publicId, now, ByRecovery);
      } else {
        SessionFailureKeeps(t, h, s, a, now);
      }
    }
  }

  lemma SessionFailureKeeps(t: Tables, h: History, s: nat, a: nat, now: nat)
    requires SessionsOk(t, h) && s in t.sessions && a in t.accounts
    ensures SessionsOk(CountSessionFailure(t, s, RecordTotpFailure(t, a, now)).0, h)
  {
    var (t1, until) := RecordTotpFailure(t, a, now);
    FailureKeeps(t, h, a, now);
    EndingKeeps(t1, h, {s});
    if until.None? {
      SessionKeeps(t1, h, s, t.sessions[s].(attempts := t.sessions[s].attempts + 1));
    }
  }

  lemma ConfirmCodeKeeps(t: Tables, h: History, env: Env, a: nat, code: seq<ascii>, now: nat)
    requires SessionsOk(t, h)
    ensures var t' := VerifyConfirmCode(t, env, a, code, now).0;
            && SessionsOk(t', h) && t'.passkeys == t.passkeys && t'.accounts.Keys == t.accounts.Keys
            && t'.sessions.Keys <= t.sessions.Keys
  {
    if a in t.accounts {
      var step := CodeStep(env, t.accounts[a], code, now);
      AccountKeeps(t, h, a, t.accounts[a].(lastStep := step, failed := 0));
      CodesAndBindingsKeep(t, h, ConsumeRecoveryCode(t, a, code).0);
      FailureKeeps(t, h, a, now);
    }
  }

  lemma ConfirmByCodeKeeps(m: Machine, env: Env, s: nat, c: ConfirmStep)
    requires Inv(m) && s in m.t.sessions && m.t.sessions[s].account in m.t.accounts && c.ByCode?
    ensures var m' := DoConfirm(m, env, s, c); Good(m'.t, m'.h, m.used)
  {
    var a, m' := m.t.sessions[s].account, DoConfirm(m, env, s, c);
    var (t1, r) := VerifyConfirmCode(m.t, env, a, c.code, m.now);
    assert m'.h.proved == m.h.proved && m'.h.pendingBorn == m.h.pendingBorn;
    HistoryKeeps(m.t, m.h, m'.h);
    ConfirmCodeKeeps(m.t, m'.h, env, a, c.code, m.now);
    ConfirmedKeeps(t1, m'.h, env, s, m.now);
    assert m'.t == if r.ConfirmOk? then MarkConfirmed(t1, env, s, m.now) else t1;
  }

  lemma PasskeyConfirmation(m: Machine, env: Env, s: nat, c: ConfirmStep)
    requires s in m.t.sessions && m.t.sessions[s].account in m.t.accounts && c.WithPasskey?
    ensures var m' := DoConfirm(m, env, s, c);
            var (t1, error) := CheckAssertion(m.t, env, s, m.t.sessions[s].account, ForConfirm, c.credential,
                                              c.assertion, m.now);
            && m'.t == (if error.Some? then t1 else MarkConfirmed(t1, env, s, m.now))
            && m'.h.proved == m.h.proved && m'.h.pendingBorn == m.h.pendingBorn
  {
  }

  lemma ConfirmByPasskeyKeeps(m: Machine, env: Env, s: nat, c: ConfirmStep)
    requires Inv(m) && s in m.t.sessions && m.t.sessions[s].account in m.t.accounts && c.WithPasskey?
    ensures var m' := DoConfirm(m, env, s, c); Good(m'.t, m'.h, m.used)
  {
    var a, m' := m.t.sessions[s].account, DoConfirm(m, env, s, c);
    PasskeyConfirmation(m, env, s, c);
    AssertionKeeps(m.t, m.h, env, s, a, ForConfirm, c.credential, c.assertion, m.now);
    var t1 := CheckAssertion(m.t, env, s, a, ForConfirm, c.credential, c.assertion, m.now).0;
    ConfirmedKeeps(t1, m.h, env, s, m.now);
    HistoryKeeps(m'.t, m.h, m'.h);
    assert OwnersExist(m'.t) && KnownNames(m'.t, m'.h, m.used);
  }

  lemma ConfirmKeeps(m: Machine, env: Env, s: nat, c: ConfirmStep)
    requires Inv(m) && s in m.t.sessions && m.t.sessions[s].account in m.t.accounts
    ensures var m' := DoConfirm(m, env, s, c); Good(m'.t, m'.h, m.used)
  {
    if c.ByCode? {
      ConfirmByCodeKeeps(m, env, s, c);
    } else if c.WithPasskey? {
      ConfirmByPasskeyKeeps(m, env, s, c);
    } else {
      HistoryKeeps(m.t, m.h, DoConfirm(m, env, s, c).h);
      if c.ByPassword? {
        ConfirmedKeeps(m.t, DoConfirm(m, env, s, c).h, env, s, m.now);
      } else {
        CeremonyKeeps(m.t, DoConfirm(m, env, s, c).h, s, ForConfirm, c.challenge, m.now);
      }
    }
  }

  // ---- Adding and removing factors --------------------------------------------------------------------

  /** Where one account's factors change, no session of it may survive except one that is verified. */
  ghost predicate Alone(t: Tables, t': Tables, a: nat, s: nat) {
    && t'.accounts.Keys == t.accounts.Keys
    && (forall x :: x != a ==> (HasSecondFactor(t', x) <==> HasSecondFactor(t, x)))
    && (forall q :: q in t'.sessions ==> q in t.sessions && t'.sessions[q].account == t.sessions[q].account)
    && (forall q :: q in t'.sessions && t'.sessions[q].account != a ==> t'.sessions[q] == t.sessions[q])
    && (forall q :: q in t'.sessions && t'.sessions[q].account == a ==> q == s && t'.sessions[q].verified)
  }

  lemma AloneKeeps(t: Tables, h: History, t': Tables, h': History, a: nat, s: nat)
    requires SessionsOk(t, h) && Alone(t, t', a, s) && h.proved <= h'.proved && h'.pendingBorn == h.pendingBorn
    requires s in t'.sessions && t'.sessions[s].account == a && HasSecondFactor(t', a) ==> s in h'.proved
    requires s in t'.sessions ==> s !in h.pendingBorn
    ensures SessionsOk(t', h')
  {
    forall q | q in t'.sessions ensures SessionOk(t'.sessions[q], q, t', h') {
      assert SessionOk(t.sessions[q], q, t, h);
    }
  }

  lemma OtherAccountsFactors(t: Tables, t': Tables, a: nat)
    requires forall x :: x != a ==>
               (x in t'.accounts <==> x in t.accounts) && (x in t.accounts ==> t'.accounts[x] == t.accounts[x])
    requires forall x :: x != a ==> (Owns(t'.passkeys, x) <==> Owns(t.passkeys, x))
    ensures forall x :: x != a ==> (HasSecondFactor(t', x) <==> HasSecondFactor(t, x))
  {
  }

  lemma FinishAppKeeps(m: Machine, env: Env, s: nat, code: seq<ascii>, random: seq<seq<byte>>)
    requires Inv(m) && s in m.t.sessions && m.t.sessions[s].account in m.t.accounts && Draws(random)
    requires ReportedVerified(m.t, s)
    ensures var m' := DoFactor(m, env, s, FinishApp(code, random)); Good(m'.t, m'.h, m.used)
  {
    var a, m' := m.t.sessions[s].account, DoFactor(m, env, s, FinishApp(code, random));
    ReportedIsStored(m.t, m.h, s);
    if ConfirmTotpEnrolment(m.t, env, a, code, m.now, random).1 {
      OtherAccountsFactors(m.t, m'.t, a);
      assert Alone(m.t, m'.t, a, s);
      AloneKeeps(m.t, m.h, m'.t, m'.h, a, s);
    }
  }

  lemma RemovalKeepsOthers(passkeys: map<seq<byte>, Passkey>, gone: set<seq<byte>>, a: nat)
    requires forall c :: c in gone && c in passkeys ==> passkeys[c].account == a
    ensures forall x :: x != a ==> (Owns(passkeys - gone, x) <==> Owns(passkeys, x))
  {
    forall x | x != a ensures Owns(passkeys - gone, x) <==> Owns(passkeys, x) {
      if Owns(passkeys, x) {
        var k :| k in passkeys && passkeys[k].account == x;
        assert k in passkeys - gone;
      }
    }
  }

  lemma DropPasskeyKeeps(m: Machine, env: Env, s: nat, id: nat)
    requires Inv(m) && s in m.t.sessions && m.t.sessions[s].account in m.t.accounts
    requires ReportedVerified(m.t, s)
    ensures var m' := DoFactor(m, env, s, DropPasskey(id)); Good(m'.t, m'.h, m.used)
  {
    var a, m' := m.t.sessions[s].account, DoFactor(m, env, s, DropPasskey(id));
    ReportedIsStored(m.t, m.h, s);
    if m'.t != m.t {
      RemovalKeepsOthers(m.t.passkeys, Owned(m.t, a, id), a);
      OtherAccountsFactors(m.t, m'.t, a);
      assert HasSecondFactor(m.t, a) by {
        var c :| c in Owned(m.t, a, id);
        assert c in m.t.passkeys && m.t.passkeys[c].account == a;
      }
      assert SessionOk(m.t.sessions[s], s, m.t, m.h);
      assert Alone(m.t, m'.t, a, s);
      AloneKeeps(m.t, m.h, m'.t, m'.h, a, s);
    }
  }

  lemma AddPasskeyKeeps(m: Machine, env: Env, s: nat, registration: W.RegistrationInput, id: nat,
                        random: seq<seq<byte>>)
    requires Inv(m) && s in m.t.sessions && m.t.sessions[s].account in m.t.accounts && Draws(random)
    requires ReportedVerified(m.t, s)
    ensures var m' := DoFactor(m, env, s, AddPasskey(registration, id, random)); Good(m'.t, m'.h, m.used)
  {
    var a, m' := m.t.sessions[s].account, DoFactor(m, env, s, AddPasskey(registration, id, random));
    ReportedIsStored(m.t, m.h, s);
    if RegistrationOutcome(m.t, env, s, a, registration, m.now).Ok? {
      assert m'.h.proved == m.h.proved + {s} && m'.h.pendingBorn == m.h.pendingBorn;
      AddedAlone(m, env, s, registration, id, random);
      AloneKeeps(m.t, m.h, m'.t, m'.h, a, s);
    }
  }

  lemma AddedAlone(m: Machine, env: Env, s: nat, registration: W.RegistrationInput, id: nat, random: seq<seq<byte>>)
    requires OwnersExist(m.t) && s in m.t.sessions && m.t.sessions[s].account in m.t.accounts && Draws(random)
    requires RegistrationOutcome(m.t, env, s, m.t.sessions[s].account, registration, m.now).Ok?
    ensures var t' := DoFactor(m, env, s, AddPasskey(registration, id, random)).t;
            Alone(m.t, t', m.t.sessions[s].account, s) && OwnersExist(t') && t'.sessions.Keys <= m.t.sessions.Keys
  {
    var a, t' := m.t.sessions[s].account, DoFactor(m, env, s, AddPasskey(registration, id, random)).t;
    var reg := RegistrationOutcome(m.t, env, s, a, registration, m.now).value;
    var pk := Passkey(id, a, reg.publicKey, reg.algorithm, reg.signCount);
    AddedTables(m, env, s, registration, id, random);
    AdditionKeepsOthers(m.t.passkeys, reg.credentialId, pk);
    OtherAccountsFactors(m.t, t', a);
  }

  /** What adding a passkey comes to: one more passkey, and of the account's sessions only this one, verified. */
  lemma AddedTables(m: Machine, env: Env, s: nat, registration: W.RegistrationInput, id: nat, random: seq<seq<byte>>)
    requires s in m.t.sessions && m.t.sessions[s].account in m.t.accounts && Draws(random)
    requires RegistrationOutcome(m.t, env, s, m.t.sessions[s].account, registration, m.now).Ok?
    ensures var a, t' := m.t.sessions[s].account, DoFactor(m, env, s, AddPasskey(registration, id, random)).t;
            var reg := RegistrationOutcome(m.t, env, s, a, registration, m.now).value;
            && reg.credentialId !in m.t.passkeys
            && t'.accounts == m.t.accounts
            && t'.passkeys == m.t.passkeys[reg.credentialId := Passkey(id, a, reg.publicKey, reg.algorithm,
                reg.signCount)]
            && t'.sessions == (m.t.sessions - (SessionsOf(m.t, a) - {s}))[s := m.t.sessions[s].(ceremony := None,
                verified := true)]
  {
  }

  lemma AdditionKeepsOthers(passkeys: map<seq<byte>, Passkey>, c: seq<byte>, pk: Passkey)
    requires c !in passkeys
    ensures forall x :: x != pk.account ==> (Owns(passkeys[c := pk], x) <==> Owns(passkeys, x))
  {
    forall x | x != pk.account ensures Owns(passkeys[c := pk], x) <==> Owns(passkeys, x) {
      if Owns(passkeys, x) {
        var k :| k in passkeys && passkeys[k].account == x;
        assert k in passkeys[c := pk];
      }
    }
  }

  /** Clearing the app ends every session of the account but the one kept. */
  lemma ForceDisableKeeps(t: Tables, h: History, a: nat, keep: Option<nat>)
    requires SessionsOk(t, h) && OwnersExist(t) && a in t.accounts
    requires keep.Some? && keep.value in t.sessions && t.sessions[keep.value].account == a ==>
      t.sessions[keep.value].verified && (HasSecondFactor(t, a) || !HasPasskey(t, a))
    ensures SessionsOk(ForceDisableTotp(t, a, keep), h) && OwnersExist(ForceDisableTotp(t, a, keep))
    ensures ForceDisableTotp(t, a, keep).accounts.Keys == t.accounts.Keys
    ensures ForceDisableTotp(t, a, keep).sessions.Keys <= t.sessions.Keys
  {
    var t' := ForceDisableTotp(t, a, keep);
    OtherAccountsFactors(t, t', a);
    assert t'.passkeys == t.passkeys;
    forall q | q in t'.sessions ensures SessionOk(t'.sessions[q], q, t', h) {
      assert SessionOk(t.sessions[q], q, t, h);
    }
  }

  lemma DisableAppKeeps(m: Machine, env: Env, s: nat, code: seq<ascii>)
    requires Inv(m) && s in m.t.sessions && m.t.sessions[s].account in m.t.accounts
    requires ReportedVerified(m.t, s)
    ensures var m' := DoFactor(m, env, s, DisableApp(code)); Good(m'.t, m'.h, m.used)
  {
    var a, m' := m.t.sessions[s].account, DoFactor(m, env, s, DisableApp(code));
    ReportedIsStored(m.t, m.h, s);
    HistoryKeeps(m.t, m.h, m'.h);
    if m'.t != m.t {
      if CodeStep(env, m.t.accounts[a], code, m.now).Some? {
        ForceDisableKeeps(m.t, m'.h, a, Some(s));
      } else {
        var consumed := ConsumeRecoveryCode(m.t, a, code).0;
        CodesAndBindingsKeep(m.t, m'.h, consumed);
        ForceDisableKeeps(consumed, m'.h, a, Some(s));
      }
    }
  }

  lemma ResetKeeps(t: Tables, h: History, a: nat)
    requires SessionsOk(t, h) && OwnersExist(t) && a in t.accounts
    ensures SessionsOk(ResetSecondFactors(t, a), h) && OwnersExist(ResetSecondFactors(t, a))
    ensures ResetSecondFactors(t, a).accounts.Keys == t.accounts.Keys
    ensures ResetSecondFactors(t, a).sessions.Keys <= t.sessions.Keys
  {
    var t' := ResetSecondFactors(t, a);
    RemovalKeepsOthers(t.passkeys, PasskeysOf(t, a), a);
    assert t'.passkeys == t.passkeys - PasskeysOf(t, a);
    OtherAccountsFactors(t, t', a);
    forall q | q in t'.sessions ensures SessionOk(t'.sessions[q], q, t', h) {
      assert SessionOk(t.sessions[q], q, t, h);
    }
  }

  lemma FactorKeeps(m: Machine, env: Env, s: nat, f: FactorStep)
    requires Inv(m) && s in m.t.sessions && m.t.sessions[s].account in m.t.accounts && DrawnCodes(f)
    requires ReportedVerified(m.t, s)
    ensures var m' := DoFactor(m, env, s, f); Good(m'.t, m'.h, m.used)
  {
    var a, m' := m.t.sessions[s].account, DoFactor(m, env, s, f);
    match f
    case BeginApp(secret) => AccountKeeps(m.t, m.h, a, m'.t.accounts[a]);
    case FinishApp(code, random) => FinishAppKeeps(m, env, s, code, random);
    case NewCodes(code, random) =>
      HistoryKeeps(m.t, m.h, m'.h);
      var acc := m.t.accounts[a].(lastStep := CodeStep(env, m.t.accounts[a], code, m.now));
      AccountKeeps(m.t, m'.h, a, acc);
      CodesAndBindingsKeep(WithAccount(m.t, a, acc), m'.h, ReplaceRecoveryCodes(WithAccount(m.t, a, acc), a, random));
    case DisableApp(code) => DisableAppKeeps(m, env, s, code);
    case PasskeyOptions(challenge) =>
      CeremonyKeeps(m.t, m.h, s, ForRegister, challenge, m.now);
      HistoryKeeps(m'.t, m.h, m'.h);
    case AddPasskey(registration, id, random) => AddPasskeyKeeps(m, env, s, registration, id, random);
    case DropPasskey(id) => DropPasskeyKeeps(m, env, s, id);
    case ConfirmedNewCodes(random) =>
      HistoryKeeps(m.t, m.h, m'.h);
      CodesAndBindingsKeep(m.t, m'.h, m'.t);
  }

  // ---- Sessions, accounts, everything -----------------------------------------------------------------

  lemma SessionStepKeeps(m: Machine, s: nat, x: SessionStep)
    requires Inv(m) && s in m.t.sessions && m.t.sessions[s].account in m.t.accounts
    ensures var m' := DoSession(m, s, x); Good(m'.t, m'.h, m.used)
  {
    var a, m' := m.t.sessions[s].account, DoSession(m, s, x);
    match x
    case ChangePassword(current, next) =>
      var acc := m.t.accounts[a].(password := next, mustChange := false);
      AccountKeeps(m.t, m.h, a, acc);
      EndingKeeps(WithAccount(m.t, a, acc), m.h, SessionsOf(m.t, a) - {s});
    case RevokeOthers => EndingKeeps(m.t, m.h, SessionsOf(m.t, a) - {s});
    case RevokeOne(publicId) =>
      EndingKeeps(m.t, m.h,
                  set q | q in m.t.sessions && m.t.sessions[q].account == a && m.t.sessions[q].publicId == publicId);
    case LoadPage(challenge) =>
      SessionKeeps(m.t, m.h, s, m.t.sessions[s].(offerChallenge := Some(challenge), offeredAt := Some(m.now)));
      HistoryKeeps(m'.t, m.h, m'.h);
    case Bind(proof, binding, cookie) =>
      SessionKeeps(m.t, m.h, s, m.t.sessions[s].(offerChallenge := None));
      CodesAndBindingsKeep(WithSession(m.t, s, m.t.sessions[s].(offerChallenge := None)), m.h,
                           WithSession(m.t, s, m.t.sessions[s].(offerChallenge := None)).(bindings := m'.t.bindings));
      HistoryKeeps(m'.t, m.h, m'.h);
  }

  lemma DeleteKeeps(t: Tables, h: History, actor: nat, a: nat)
    requires SessionsOk(t, h) && OwnersExist(t)
    ensures var t' := DeleteUser(t, actor, a).0;
            SessionsOk(t', h) && OwnersExist(t') && t'.accounts.Keys <= t.accounts.Keys
              && t'.sessions.Keys <= t.sessions.Keys
  {
    var t' := DeleteUser(t, actor, a).0;
    if t' != t {
      RemovalKeepsOthers(t.passkeys, PasskeysOf(t, a), a);
      assert t'.passkeys == t.passkeys - PasskeysOf(t, a);
      OtherAccountsFactors(t, t', a);
      forall q | q in t'.sessions ensures SessionOk(t'.sessions[q], q, t', h) {
        assert SessionOk(t.sessions[q], q, t, h);
      }
    }
  }

  /** A new account has no sessions, so its row can be anything. */
  lemma NewAccountKeeps(t: Tables, h: History, a: nat, acc: Account)
    requires SessionsOk(t, h) && OwnersExist(t) && a !in t.accounts
    ensures SessionsOk(WithAccount(t, a, acc), h) && OwnersExist(WithAccount(t, a, acc))
  {
    var t' := WithAccount(t, a, acc);
    forall q | q in t'.sessions ensures SessionOk(t'.sessions[q], q, t', h) {
      assert SessionOk(t.sessions[q], q, t, h);
    }
  }

  lemma UserKeeps(m: Machine, actor: nat, u: UserStep)
    requires Inv(m) && (u.AddUser? ==> u.a !in m.used)
    ensures var m' := DoUser(m, actor, u); Good(m'.t, m'.h, m.used + (if u.AddUser? then {u.a} else {}))
  {
    var a, m' := u.a, DoUser(m, actor, u);
    if u.AddUser? {
      NewAccountKeeps(m.t, m.h, a, m'.t.accounts[a]);
    } else if u.Remove? {
      DeleteKeeps(m.t, m.h, actor, a);
    } else if u.ResetFactors? {
      HistoryKeeps(m.t, m.h, m'.h);
      if a in m.t.accounts {
        ResetKeeps(m.t, m'.h, a);
      }
    } else if a in m.t.accounts && m'.t != m.t {
      AccountKeeps(m.t, m.h, a, m'.t.accounts[a]);
      EndingKeeps(WithAccount(m.t, a, m'.t.accounts[a]), m.h, SessionsOf(m.t, a));
    }
  }

  lemma RequestKeeps(m: Machine, env: Env, s: nat, r: Request, names: set<nat>)
    requires Inv(m) && s in m.t.sessions && m.t.sessions[s].account in m.t.accounts
    requires Drawn(m.used, Arrives(s, None, r)) && names == Names(Arrives(s, None, r))
    requires Admitted(m.t, env, s, m.now, r)
    ensures var m' := DoRequest(m, env, s, r); Good(m'.t, m'.h, m.used + names)
  {
    match r
    case LoginRequest(l) =>
      assert l.LoginPasskey? || l.LoginCode? ==> l.born in names;
      LoginKeeps(m, env, s, l);
    case ConfirmRequest(c) => ConfirmKeeps(m, env, s, c);
    case FactorRequest(f) => FactorKeeps(m, env, s, f);
    case SessionRequest(x) => SessionStepKeeps(m, s, x);
    case UserRequest(u) =>
      assert u.AddUser? ==> u.a in names;
      UserKeeps(m, m.t.sessions[s].account, u);
    case SensitiveRequest =>
  }

  lemma RefreshKeeps(m: Machine, b: nat, proof: Option<Proof>, cookie: nat, challenge: nat)
    requires Inv(m)
    ensures var m' := DoRefresh(m, b, proof, cookie, challenge); Good(m'.t, m'.h, m.used)
  {
    var m' := DoRefresh(m, b, proof, cookie, challenge);
    CodesAndBindingsKeep(m.t, m.h, m'.t);
    HistoryKeeps(m'.t, m.h, m'.h);
  }

  lemma GateKeeps(m: Machine, s: nat, bound: Option<nat>)
    requires Inv(m)
    ensures Inv(m.(t := Gate(m.t, s, bound, m.now).0))
  {
    EndingKeeps(m.t, m.h, {s});
  }

  lemma CliKeeps(m: Machine, env: Env, e: Event)
    requires Inv(m) && Drawn(m.used, e) && (e.Purge? || e.CliCreateAdmin? || e.CliResetPassword? || e.CliDisableTotp?)
    ensures Inv(Step(m, env, e))
  {
    var m' := Handle(m, env, e);
    if e.Purge? {
      EndingKeeps(m.t, m.h, ExpiredSessions(m.t, m.now));
    } else if e.CliCreateAdmin? {
      assert e.a in Names(e);
      NewAccountKeeps(m.t, m.h, e.a, NewAccount(e.password, Admin, false));
    } else if e.CliResetPassword? {
      if m'.t != m.t {
        AccountKeeps(m.t, m.h, e.a, m'.t.accounts[e.a]);
        EndingKeeps(WithAccount(m.t, e.a, m'.t.accounts[e.a]), m.h, SessionsOf(m.t, e.a));
      }
    } else if e.a in m.t.accounts {
      HistoryKeeps(m.t, m.h, m'.h);
      ResetKeeps(m.t, m'.h, e.a);
    }
  }

  lemma ArrivalKeeps(m: Machine, env: Env, e: Event)
    requires Inv(m) && Drawn(m.used, e) && e.Arrives?
    ensures Inv(Step(m, env, e))
  {
    GateKeeps(m, e.s, e.bound);
    var (t1, passed) := Gate(m.t, e.s, e.bound, m.now);
    var m1 := m.(t := t1);
    if passed && Admitted(t1, env, e.s, m.now, e.r) {
      RequestKeeps(m1, env, e.s, e.r, Names(e));
      assert Handle(m, env, e) == DoRequest(m1, env, e.s, e.r);
    } else {
      assert Handle(m, env, e) == m1;
    }
  }

  lemma StepKeepsInv(m: Machine, env: Env, e: Event)
    requires Inv(m) && Drawn(m.used, e)
    ensures Inv(Step(m, env, e))
  {
    if e.Arrives? {
      ArrivalKeeps(m, env, e);
    } else if e.SignIn? {
      assert e.born in Names(e);
      SignInKeeps(m, env, e.a, e.password, e.born, e.publicId);
    } else if e.Refresh? {
      RefreshKeeps(m, e.b, e.proof, e.cookie, e.challenge);
    } else if !e.Tick? {
      CliKeeps(m, env, e);
    }
  }

  lemma {:induction false} RunKeepsInv(env: Env, ms: seq<Machine>, es: seq<Event>, i: nat)
    requires Run(env, ms, es) && i < |ms|
    ensures Inv(ms[i])
  {
    if i > 0 {
      RunKeepsInv(env, ms, es, i - 1);
      assert StepAt(env, ms, es, i - 1);
      StepKeepsInv(ms[i - 1], env, es[i - 1]);
    }
  }

  // ---- What it means over a run -----------------------------------------------------------------------

  /** In this step session `s` proved a second factor: at its own birth at login, or by adding one. */
  predicate ProvesFactor(m: Machine, env: Env, e: Event, s: nat) {
    && e.Arrives?
    && var (t, passed) := Gate(m.t, e.s, e.bound, m.now);
    && passed && Admitted(t, env, e.s, m.now, e.r)
    && var a := t.sessions[e.s].account;
    || (e.r.LoginRequest? && e.r.l.LoginCode? && e.r.l.born == s
        && !ReportedVerified(t, e.s) && !IsTotpLocked(t.accounts[a], m.now)
        && (CodeStep(env, t.accounts[a], e.r.l.code, m.now).Some? || Redeemable(CodesOf(t, a), e.r.l.code)))
    || (e.r.LoginRequest? && e.r.l.LoginPasskey? && e.r.l.born == s && !ReportedVerified(t, e.s)
        && AssertionOutcome(t, env, e.s, a, ForLogin, e.r.l.credential, e.r.l.assertion, m.now).Ok?)
    || (e.r.FactorRequest? && e.r.f.FinishApp? && e.s == s
        && EnrolStep(env, t.accounts[a], e.r.f.code, m.now).Some?)
    || (e.r.FactorRequest? && e.r.f.AddPasskey? && e.s == s
        && RegistrationOutcome(t, env, s, a, e.r.f.registration, m.now).Ok?)
  }

  lemma LoginProves(m: Machine, env: Env, s: nat, l: LoginStep, q: nat)
    requires s in m.t.sessions && m.t.sessions[s].account in m.t.accounts
    ensures var a := m.t.sessions[s].account;
            q in DoLogin(m, env, s, l).h.proved && q !in m.h.proved ==>
            || (l.LoginCode? && l.born == q
                && (CodeStep(env, m.t.accounts[a], l.code, m.now).Some? || Redeemable(CodesOf(m.t, a), l.code)))
            || (l.LoginPasskey? && l.born == q
                && AssertionOutcome(m.t, env, s, a, ForLogin, l.credential, l.assertion, m.now).Ok?)
  {
    if l.LoginPasskey? && !ReportedVerified(m.t, s) {
      PasskeyLoginProves(m, env, s, l);
    }
  }

  lemma PasskeyLoginProves(m: Machine, env: Env, s: nat, l: LoginStep)
    requires s in m.t.sessions && m.t.sessions[s].account in m.t.accounts && l.LoginPasskey? && !ReportedVerified(m.t, s)
    ensures var a := m.t.sessions[s].account;
            DoLogin(m, env, s, l).h.proved
            == m.h.proved
               + (if AssertionOutcome(m.t, env, s, a, ForLogin, l.credential, l.assertion,
                                      m.now).Ok? then {l.born} else {})
  {
    var a := m.t.sessions[s].account;
    var error := VerifyPasskeyLogin(m.t, env, s, a, l.credential, l.assertion, m.now, l.born, l.publicId).1;
    assert error.None? <==> AssertionOutcome(m.t, env, s, a, ForLogin, l.credential, l.assertion, m.now).Ok?;
  }

  lemma AddingProves(m: Machine, env: Env, s: nat, f: FactorStep)
    requires s in m.t.sessions && m.t.sessions[s].account in m.t.accounts && DrawnCodes(f) && f.AddPasskey?
    ensures var a := m.t.sessions[s].account;
            DoFactor(m, env, s, f).h.proved
            == m.h.proved + (if RegistrationOutcome(m.t, env, s, a, f.registration, m.now).Ok? then {s} else {})
  {
    var a := m.t.sessions[s].account;
    if RegistrationOutcome(m.t, env, s, a, f.registration, m.now).Ok? {
      RegisteredHasFactor(m.t, env, s, a, f.registration, m.now, f.id);
    }
  }

  lemma FinishingProves(m: Machine, env: Env, s: nat, f: FactorStep)
    requires s in m.t.sessions && m.t.sessions[s].account in m.t.accounts && DrawnCodes(f) && f.FinishApp?
    ensures var a := m.t.sessions[s].account;
            DoFactor(m, env, s, f).h.proved
            == m.h.proved + (if EnrolStep(env, m.t.accounts[a], f.code, m.now).Some? then {s} else {})
  {
  }

  lemma {:induction false} MovesProve(env: Env, e: Event, m: Machine, mvs: seq<Move>, m': Machine)
    requires Path(env, e, m, mvs, m') && !MayProve(e)
    ensures m'.h.proved == m.h.proved
    decreases |mvs|
  {
    if mvs != [] {
      MoveProves(env, e, m, mvs[0]);
      MovesProve(env, e, Apply(env, e, m, mvs[0]), mvs[1..], m');
    }
  }

  lemma MoveProves(env: Env, e: Event, m: Machine, mv: Move)
    requires Allowed(env, e, m, mv) && !MayProve(e)
    ensures Apply(env, e, m, mv).h.proved == m.h.proved
  {
    if OnAccount(mv) {
      AccountHistoryFrame(env, e, m, mv);
    } else if OnSession(mv) {
      SessionHistoryFrame(env, e, m, mv);
    }
  }

  lemma StepProves(m: Machine, env: Env, e: Event, s: nat)
    requires Drawn(m.used, e)
    ensures s in Step(m, env, e).h.proved && s !in m.h.proved ==> ProvesFactor(m, env, e, s)
  {
    if !MayProve(e) {
      StepIsMoves(env, e, m);
      var mvs :| Path(env, e, m, mvs, Step(m, env, e));
      MovesProve(env, e, m, mvs, Step(m, env, e));
    } else {
      var (t1, passed) := Gate(m.t, e.s, e.bound, m.now);
      var m1 := m.(t := t1);
      if !passed || !Admitted(t1, env, e.s, m.now, e.r) {
        assert Handle(m, env, e) == m1;
      } else if e.r.LoginRequest? {
        LoginProves(m1, env, e.s, e.r.l, s);
      } else if e.r.f.FinishApp? {
        FinishingProves(m1, env, e.s, e.r.f);
      } else {
        AddingProves(m1, env, e.s, e.r.f);
      }
    }
  }

  lemma {:induction false} ProvedAtSomeStep(env: Env, ms: seq<Machine>, es: seq<Event>, i: nat, s: nat)
    requires Run(env, ms, es) && i < |ms| && s in ms[i].h.proved
    ensures exists j :: 0 <= j < i && ProvesFactor(ms[j], env, es[j], s)
  {
    if i > 0 {
      assert StepAt(env, ms, es, i - 1);
      if s in ms[i - 1].h.proved {
        ProvedAtSomeStep(env, ms, es, i - 1, s);
      } else {
        StepProves(ms[i - 1], env, es[i - 1], s);
      }
    }
  }

  /**
   * A session that counts as verified on an account with a second factor proved a factor in
   * that very session, at some earlier step of the run.
   */
  lemma VerifiedSessionsProvedAFactor(env: Env, ms: seq<Machine>, es: seq<Event>, i: nat, s: nat)
    requires Run(env, ms, es) && i < |ms| && s in ms[i].t.sessions
    requires ReportedVerified(ms[i].t, s) && HasSecondFactor(ms[i].t, ms[i].t.sessions[s].account)
    ensures exists j :: 0 <= j < i && ProvesFactor(ms[j], env, es[j], s)
  {
    RunKeepsInv(env, ms, es, i);
    assert SessionOk(ms[i].t.sessions[s], s, ms[i].t, ms[i].h);
    ProvedAtSomeStep(env, ms, es, i, s);
  }

  /** An unverified session row means that its account has a second factor, so it is never taken for complete. */
  lemma UnverifiedIsReportedSo(env: Env, ms: seq<Machine>, es: seq<Event>, i: nat, s: nat)
    requires Run(env, ms, es) && i < |ms| && s in ms[i].t.sessions
    ensures ms[i].t.sessions[s].verified <==> ReportedVerified(ms[i].t, s)
  {
    RunKeepsInv(env, ms, es, i);
    assert SessionOk(ms[i].t.sessions[s], s, ms[i].t, ms[i].h);
  }

  lemma MoveKeepsPending(env: Env, e: Event, m: Machine, mv: Move)
    requires Allowed(env, e, m, mv)
    ensures m.h.pendingBorn <= Apply(env, e, m, mv).h.pendingBorn
  {
    if OnAccount(mv) {
      AccountHistoryFrame(env, e, m, mv);
    } else if OnSession(mv) {
      SessionHistoryFrame(env, e, m, mv);
    }
  }

  lemma {:induction false} MovesKeepPending(env: Env, e: Event, m: Machine, mvs: seq<Move>, m': Machine)
    requires Path(env, e, m, mvs, m')
    ensures m.h.pendingBorn <= m'.h.pendingBorn
    decreases |mvs|
  {
    if mvs != [] {
      MoveKeepsPending(env, e, m, mvs[0]);
      MovesKeepPending(env, e, Apply(env, e, m, mvs[0]), mvs[1..], m');
    }
  }

  lemma PendingGrows(m: Machine, env: Env, e: Event)
    requires Drawn(m.used, e)
    ensures m.h.pendingBorn <= Step(m, env, e).h.pendingBorn
  {
    StepIsMoves(env, e, m);
    var mvs :| Path(env, e, m, mvs, Step(m, env, e));
    MovesKeepPending(env, e, m, mvs, Step(m, env, e));
  }

  lemma {:induction false} PendingStays(env: Env, ms: seq<Machine>, es: seq<Event>, i: nat, j: nat)
    requires Run(env, ms, es) && i <= j < |ms|
    ensures ms[i].h.pendingBorn <= ms[j].h.pendingBorn
  {
    if i < j {
      PendingStays(env, ms, es, i, j - 1);
      assert StepAt(env, ms, es, j - 1);
      PendingGrows(ms[j - 1], env, es[j - 1]);
    }
  }

  /**
   * A session that starts at the password step of an account with a second factor never becomes
   * verified: not when factors are added, removed or reset, for as long as it exists.
   */
  lemma PendingNeverBecomesVerified(env: Env, ms: seq<Machine>, es: seq<Event>, i: nat, j: nat, e: Event)
    requires Run(env, ms, es) && i < j < |ms| && es[i] == e && e.SignIn?
    requires Authenticates(ms[i].t, e.a, e.password) && HasSecondFactor(ms[i].t, e.a)
    requires e.born in ms[j].t.sessions
    ensures !ms[j].t.sessions[e.born].verified && !ReportedVerified(ms[j].t, e.born)
  {
    assert StepAt(env, ms, es, i);
    PendingStays(env, ms, es, i + 1, j);
    RunKeepsInv(env, ms, es, j);
    assert SessionOk(ms[j].t.sessions[e.born], e.born, ms[j].t, ms[j].h);
  }
}
