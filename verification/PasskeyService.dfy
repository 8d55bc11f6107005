/** The statements of src/services/passkeys.ts, each proved to do what module Passkeys says of the tables. */
module PasskeyService {
  import opened Common
  import opened Tables
  import opened Database
  import opened Auth
  import opened Passkeys
  import AuthService
  import P = Passkeys
  import W = WebAuthn

  method BeginCeremony(db: Db, s: nat, purpose: Purpose, challenge: nat, now: nat)
    modifies db
    ensures db.View() == P.BeginCeremony(old(db.View()), s, purpose, challenge, now)
    ensures db.saved == old(db.saved)
  {
    if s in db.sessions {
      db.UpdateSession(s, db.sessions[s].(ceremony := Some(Ceremony(challenge, purpose, now + CEREMONY_TTL_MS))));
    }
  }

  /** The challenge leaves the session before anything about it is checked. */
  method TakeChallenge(db: Db, s: nat, purpose: Purpose, now: nat) returns (challenge: Option<nat>)
    modifies db
    ensures db.View() == P.TakeChallenge(old(db.View()), s)
    ensures challenge == Pending(old(db.View()), s, purpose, now)
    ensures db.saved == old(db.saved)
  {
    var row := if s in db.sessions then db.sessions[s].ceremony else None;
    if s in db.sessions {
      db.UpdateSession(s, db.sessions[s].(ceremony := None));
    }
    if row.None? || row.value.purpose != purpose || row.value.expiresAt <= now {
      return None;
    }
    return Some(row.value.challenge);
  }

  /** Any error undoes the transaction, so the challenge is pending again. */
  method RegisterPasskey(db: Db, env: Env, s: nat, a: nat, input: W.RegistrationInput, now: nat, id: nat)
    returns (error: Option<W.WebAuthnError>)
    requires db.saved.None?
    modifies db
    ensures (db.View(), error) == P.RegisterPasskey(old(db.View()), env, s, a, input, now, id)
    ensures db.saved.None?
  {
    db.Begin();
    error := SavePasskey(db, env, s, a, input, now, id);
    if error.Some? {
      db.Rollback();
    } else {
      db.Commit();
    }
  }

  /** The body of the transaction; an error says which exception ended it. */
  method SavePasskey(db: Db, env: Env, s: nat, a: nat, input: W.RegistrationInput, now: nat, id: nat)
    returns (error: Option<W.WebAuthnError>)
    modifies db
    ensures var outcome := RegistrationOutcome(old(db.View()), env, s, a, input, now);
            && (error.None? <==> outcome.Ok?)
            && (error.Some? ==> outcome == Err(error.value))
            && (error.None? ==> db.View() == P.RegisterPasskey(old(db.View()), env, s, a, input, now, id).0)
    ensures db.saved == old(db.saved)
  {
    var challenge := TakeChallenge(db, s, ForRegister, now);
    if challenge.None? {
      return Some(W.NoPendingChallenge);
    }
    var verified := W.VerifyRegistration(env.keys, input, Expect(env, challenge.value));
    if verified.Err? {
      return Some(verified.error);
    }
    var reg := verified.value;
    if |set c | c in db.passkeys && db.passkeys[c].account == a| >= MAX_PASSKEYS {
      return Some(W.TooManyPasskeys);
    }
    if reg.credentialId in db.passkeys {
      return Some(W.AlreadyRegistered);
    }
    db.passkeys := db.passkeys[reg.credentialId := Passkey(id, a, reg.publicKey, reg.algorithm, reg.signCount)];
    if s in db.sessions {
      db.UpdateSession(s, db.sessions[s].(verified := true));
    }
    return None;
  }

  method CheckAssertion(db: Db, env: Env, s: nat, a: nat, purpose: Purpose, credential: seq<byte>,
                        input: W.AssertionInput, now: nat)
    returns (error: Option<W.WebAuthnError>)
    modifies db
    ensures (db.View(), error) == P.CheckAssertion(old(db.View()), env, s, a, purpose, credential, input, now)
    ensures db.saved == old(db.saved)
  {
    var challenge := TakeChallenge(db, s, purpose, now);
    if challenge.None? {
      return Some(W.NoPendingChallenge);
    }
    if credential !in db.passkeys || db.passkeys[credential].account != a {
      return Some(W.UnknownPasskey);
    }
    var cred := db.passkeys[credential];
    var expected := Expect(env, challenge.value);
    var count := W.VerifyAssertion(env.keys, input, cred.publicKey, cred.algorithm, cred.signCount, expected);
    if count.Err? {
      return Some(count.error);
    }
    db.passkeys := db.passkeys[credential := cred.(signCount := count.value)];
    return None;
  }

  /** A failed check still spends the challenge: its error is kept and the transaction commits. */
  method VerifyPasskeyLogin(db: Db, env: Env, s: nat, a: nat, credential: seq<byte>, input: W.AssertionInput,
                            now: nat, born: nat, publicId: nat)
    returns (error: Option<W.WebAuthnError>)
    requires db.saved.None? && a in db.accounts
    modifies db
    ensures (db.View(), error) == P.VerifyPasskeyLogin(old(db.View()), env, s, a, credential, input, now, born, publicId)
    ensures db.saved.None?
  {
    db.Begin();
    error := CheckAssertion(db, env, s, a, ForLogin, credential, input, now);
    if error.None? {
      AuthService.CompleteSecondFactor(db, env, s, a, born, publicId, now, ByPasskey);
    }
    db.Commit();
  }

  method VerifyPasskeyConfirm(db: Db, env: Env, s: nat, a: nat, credential: seq<byte>, input: W.AssertionInput,
                              now: nat)
    returns (error: Option<W.WebAuthnError>)
    requires db.saved.None?
    modifies db
    ensures (db.View(), error) == P.VerifyPasskeyConfirm(old(db.View()), env, s, a, credential, input, now)
    ensures db.saved.None?
  {
    db.Begin();
    error := CheckAssertion(db, env, s, a, ForConfirm, credential, input, now);
    db.Commit();
  }

  method RemovePasskey(db: Db, a: nat, id: nat, keep: nat) returns (removed: bool)
    requires db.saved.None?
    modifies db
    ensures (db.View(), removed) == P.RemovePasskey(old(db.View()), a, id, keep)
    ensures db.saved.None?
  {
    db.Begin();
    var rows := set c | c in db.passkeys && db.passkeys[c].account == a && db.passkeys[c].id == id;
    if rows == {} {
      db.Commit();
      return false;
    }
    db.passkeys := db.passkeys - rows;
    AuthService.DropRecoveryCodesIfUnused(db, a);
    AuthService.DestroyOtherSessions(db, a, keep);
    db.Commit();
    return true;
  }
}
