/**
 * The handlers of src/http/admin.ts: the services they call, in order. Each does to the tables
 * what the corresponding step of the panel says. Refusals and redirects are not distinguished.
 */
module AdminHandlers {
  import opened Common
  import opened Base32
  import opened Tables
  import opened Database
  import opened Auth
  import opened Passkeys
  import opened Bindings
  import opened Panel
  import AuthService
  import PasskeyService
  import SessionService
  import UserService
  import W = WebAuthn

  /** The machine these tables are the state of; handlers never look at its history. */
  function At(t: Tables, now: nat): Machine {
    Machine(t, now, {}, NoHistory())
  }

  /** `sessionMiddleware`: whether the request counts as coming from session `s`. */
  method Gate(db: Db, s: nat, bound: Option<nat>, now: nat) returns (passed: bool)
    requires OnePerSession(db.bindings)
    modifies db
    ensures (db.View(), passed) == Panel.Gate(old(db.View()), s, bound, now)
    ensures db.saved == old(db.saved)
  {
    var alive := AuthService.GetSession(db, s, now);
    var check := SessionService.CheckBoundCookie(db, s, bound, now);
    return alive && !check.Rejected?;
  }

  // ---- Signing in -------------------------------------------------------------------------------------

  method SignIn(db: Db, env: Env, a: nat, password: string, born: nat, publicId: nat, now: nat)
    modifies db
    ensures db.View() == DoSignIn(At(old(db.View()), now), env, a, password, born, publicId).t
    ensures db.saved == old(db.saved)
  {
    if !Authenticates(db.View(), a, password) {
      return;
    }
    var pending := HasSecondFactor(db.View(), a);
    AuthService.CreateSession(db, env, a, born, publicId, now);
    if !pending {
      AuthService.MarkConfirmed(db, env, born, now);
    }
  }

  method Login(db: Db, env: Env, s: nat, l: LoginStep, now: nat)
    requires db.saved.None? && s in db.sessions && db.sessions[s].account in db.accounts
    modifies db
    ensures db.View() == DoLogin(At(old(db.View()), now), env, s, l).t
    ensures db.saved.None?
  {
    var a := db.sessions[s].account;
    if l.Logout? {
      db.DeleteSessions({s});
    } else if ReportedVerified(db.View(), s) {
      return;
    } else if l.LoginOptions? {
      if HasPasskey(db.View(), a) {
        PasskeyService.BeginCeremony(db, s, ForLogin, l.challenge, now);
      }
    } else if l.LoginPasskey? {
      var error := PasskeyService.VerifyPasskeyLogin(db, env, s, a, l.credential, l.assertion, now, l.born, l.publicId);
      if error.None? {
        AuthService.MarkConfirmed(db, env, l.born, now);
      }
    } else {
      var r := AuthService.VerifySessionTotp(db, env, s, l.code, now, l.born, l.publicId);
      if r.LoginOk? {
        AuthService.MarkConfirmed(db, env, l.born, now);
      }
    }
  }

  method Confirm(db: Db, env: Env, s: nat, c: ConfirmStep, now: nat)
    requires db.saved.None? && s in db.sessions && db.sessions[s].account in db.accounts
    modifies db
    ensures db.View() == DoConfirm(At(old(db.View()), now), env, s, c).t
    ensures db.saved.None?
  {
    var a := db.sessions[s].account;
    if c.ByCode? {
      var r := AuthService.VerifyConfirmCode(db, env, a, c.code, now);
      if r.ConfirmOk? {
        AuthService.MarkConfirmed(db, env, s, now);
      }
    } else if c.ByPassword? {
      if !HasSecondFactor(db.View(), a) && Authenticates(db.View(), a, c.password) {
        AuthService.MarkConfirmed(db, env, s, now);
      }
    } else if c.ConfirmOptions? {
      if HasPasskey(db.View(), a) {
        PasskeyService.BeginCeremony(db, s, ForConfirm, c.challenge, now);
      }
    } else {
      var error := PasskeyService.VerifyPasskeyConfirm(db, env, s, a, c.credential, c.assertion, now);
      if error.None? {
        AuthService.MarkConfirmed(db, env, s, now);
      }
    }
  }

  // ---- Second factors ---------------------------------------------------------------------------------

  method FinishApp(db: Db, env: Env, s: nat, code: seq<ascii>, random: seq<seq<byte>>,
                   now: nat) returns (shown: Option<seq<seq<ascii>>>)
    requires db.saved.None? && s in db.sessions && db.sessions[s].account in db.accounts && Draws(random)
    modifies db
    ensures db.View() == DoFactor(At(old(db.View()), now), env, s, FactorStep.FinishApp(code, random)).t
    ensures shown.Some? ==> |shown.value| == RECOVERY_CODES
    ensures shown.Some? ==>
              forall i :: 0 <= i < RECOVERY_CODES ==>
                Redeemable(CodesOf(db.View(), old(db.sessions[s].account)), shown.value[i])
    ensures db.saved.None?
  {
    var a := db.sessions[s].account;
    shown := AuthService.ConfirmTotpEnrolment(db, env, a, code, now, random);
    if shown.Some? {
      AuthService.DestroyOtherSessions(db, a, s);
      forall i | 0 <= i < RECOVERY_CODES ensures Redeemable(CodesOf(db.View(), a), shown.value[i]) {
        ShownCodesWork(random, i);
        assert CodesOf(db.View(), a) == FreshRows(random);
      }
    }
  }

  method AddPasskey(db: Db, env: Env, s: nat, registration: W.RegistrationInput, id: nat, random: seq<seq<byte>>,
                    now: nat)
    requires db.saved.None? && s in db.sessions && db.sessions[s].account in db.accounts && Draws(random)
    modifies db
    ensures db.View() == DoFactor(At(old(db.View()), now), env, s, FactorStep.AddPasskey(registration, id, random)).t
    ensures db.saved.None?
  {
    var a := db.sessions[s].account;
    var wasFirst := !HasSecondFactor(db.View(), a);
    var error := PasskeyService.RegisterPasskey(db, env, s, a, registration, now, id);
    if error.None? {
      AuthService.DestroyOtherSessions(db, a, s);
      if wasFirst {
        var codes := AuthService.RegenerateRecoveryCodesConfirmed(db, a, random);
      }
    }
  }

  method Factor(db: Db, env: Env, s: nat, f: FactorStep, now: nat)
    requires db.saved.None? && s in db.sessions && db.sessions[s].account in db.accounts && DrawnCodes(f)
    modifies db
    ensures db.View() == DoFactor(At(old(db.View()), now), env, s, f).t
    ensures db.saved.None?
  {
    var a := db.sessions[s].account;
    if f.BeginApp? {
      var ok := AuthService.BeginTotpEnrolment(db, a, f.secret);
    } else if f.FinishApp? {
      var shown := FinishApp(db, env, s, f.code, f.random, now);
    } else if f.NewCodes? {
      var shown := AuthService.RegenerateRecoveryCodes(db, env, a, f.code, now, f.random);
    } else if f.DisableApp? {
      if !env.requireTotp || HasPasskey(db.View(), a) {
        var ok := AuthService.DisableTotp(db, env, a, f.code, s, now);
      }
    } else if f.PasskeyOptions? {
      if |PasskeysOf(db.View(), a)| < MAX_PASSKEYS {
        PasskeyService.BeginCeremony(db, s, ForRegister, f.challenge, now);
      }
    } else if f.AddPasskey? {
      AddPasskey(db, env, s, f.registration, f.id, f.random, now);
    } else if f.DropPasskey? {
      if !env.requireTotp || db.accounts[a].enabledAt.Some? || |PasskeysOf(db.View(), a)| > 1 {
        var removed := PasskeyService.RemovePasskey(db, a, f.id, s);
      }
    } else {
      var shown := AuthService.RegenerateRecoveryCodesConfirmed(db, a, f.random);
    }
  }

  // ---- Sessions and accounts --------------------------------------------------------------------------

  method Sessions(db: Db, s: nat, x: SessionStep, now: nat)
    requires db.saved.None? && s in db.sessions && db.sessions[s].account in db.accounts
    modifies db
    ensures db.View() == DoSession(At(old(db.View()), now), s, x).t
    ensures db.saved.None?
  {
    var a := db.sessions[s].account;
    if x.ChangePassword? {
      var ok := AuthService.ChangeAdminPassword(db, a, x.current, x.next);
      if ok {
        AuthService.DestroyOtherSessions(db, a, s);
      }
    } else if x.RevokeOthers? {
      AuthService.DestroyOtherSessions(db, a, s);
    } else if x.RevokeOne? {
      if x.publicId != db.sessions[s].publicId {
        var revoked := SessionService.RevokeSession(db, a, x.publicId);
      }
    } else if x.LoadPage? {
      var offered := SessionService.OfferBinding(db, s, x.challenge, now);
    } else {
      var ok := SessionService.RegisterBinding(db, s, x.proof, x.binding, x.cookie, now);
    }
  }

  method Users(db: Db, actor: nat, u: UserStep, now: nat)
    requires db.saved.None?
    modifies db
    ensures db.View() == DoUser(At(old(db.View()), now), actor, u).t
    ensures db.saved.None?
  {
    if u.AddUser? {
      db.UpdateAccount(u.a, NewAccount(u.password, u.role, true));
    } else if u.ChangeRole? {
      var error := UserService.SetUserRole(db, actor, u.a, u.role);
    } else if u.NewPassword? {
      var error := UserService.ResetUserPassword(db, actor, u.a, u.password);
    } else if u.ResetFactors? {
      var error := UserService.ResetUserTotp(db, actor, u.a);
    } else if u.Remove? {
      var error := UserService.DeleteUser(db, actor, u.a);
    } else {
      var error := UserService.SetUserDisabled(db, actor, u.a, u.Disable?, now);
    }
  }
}
