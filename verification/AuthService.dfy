/** The statements of src/services/auth.ts, each proved to do what module Auth says of the tables. */
module AuthService {
  import opened Common
  import opened Base32
  import opened Totp
  import opened Tables
  import opened Database
  import A = Auth
  import opened Auth

  // ---- Passwords --------------------------------------------------------------------------------------

  method SetAdminPassword(db: Db, a: nat, password: string) returns (ok: bool)
    modifies db
    ensures (db.View(), ok) == A.SetAdminPassword(old(db.View()), a, password)
    ensures db.saved == old(db.saved)
  {
    if |password| < MIN_PASSWORD_LENGTH || a !in db.accounts {
      return false;
    }
    db.UpdateAccount(a, db.accounts[a].(password := password, mustChange := false));
    db.DeleteSessions(set s | s in db.sessions && db.sessions[s].account == a);
    return true;
  }

  method ChangeAdminPassword(db: Db, a: nat, current: string, next: string) returns (ok: bool)
    modifies db
    ensures (db.View(), ok) == A.ChangeAdminPassword(old(db.View()), a, current, next)
    ensures db.saved == old(db.saved)
  {
    if |next| < MIN_PASSWORD_LENGTH || a !in db.accounts || db.accounts[a].password != current || next == current {
      return false;
    }
    db.UpdateAccount(a, db.accounts[a].(password := next, mustChange := false));
    return true;
  }

  // ---- Sessions ---------------------------------------------------------------------------------------

  method CreateSession(db: Db, env: Env, a: nat, s: nat, publicId: nat, now: nat)
    modifies db
    ensures db.View() == A.CreateSession(old(db.View()), env, a, s, publicId, now)
    ensures db.saved == old(db.saved)
  {
    var verified := !HasSecondFactor(db.View(), a);
    db.UpdateSession(s, Session(a, now + env.sessionTtlMs, verified, 0, publicId, None, None, None, None, None));
  }

  method MarkConfirmed(db: Db, env: Env, s: nat, now: nat)
    modifies db
    ensures db.View() == A.MarkConfirmed(old(db.View()), env, s, now)
    ensures db.saved == old(db.saved)
  {
    if s in db.sessions {
      db.UpdateSession(s, db.sessions[s].(confirmedUntil := Some(now + env.reauthWindowMs)));
    }
  }

  method CompleteSecondFactor(db: Db, env: Env, pending: nat, a: nat, s: nat, publicId: nat, now: nat, factor: Factor)
    requires a in db.accounts
    modifies db
    ensures db.View() == A.CompleteSecondFactor(old(db.View()), env, pending, a, s, publicId, now, factor)
    ensures db.saved == old(db.saved)
  {
    db.UpdateAccount(a, db.accounts[a].(failed := 0, lockedUntil := None));
    db.DeleteSessions({pending});
    CreateSession(db, env, a, s, publicId, now);
    db.UpdateSession(s, db.sessions[s].(verified := true, factor := Some(factor)));
  }

  method GetSession(db: Db, s: nat, now: nat) returns (alive: bool)
    modifies db
    ensures (db.View(), alive) == A.GetSession(old(db.View()), s, now)
    ensures db.saved == old(db.saved)
  {
    if s !in db.sessions || db.sessions[s].account !in db.accounts {
      return false;
    }
    var row := db.sessions[s];
    if row.expiresAt <= now || db.accounts[row.account].disabledAt.Some? {
      db.DeleteSessions({s});
      return false;
    }
    return true;
  }

  method DestroyOtherSessions(db: Db, a: nat, keep: nat)
    modifies db
    ensures db.View() == A.DestroyOtherSessions(old(db.View()), a, keep)
    ensures db.saved == old(db.saved)
  {
    db.DeleteSessions((set s | s in db.sessions && db.sessions[s].account == a) - {keep});
  }

  method PurgeExpiredSessions(db: Db, now: nat) returns (purged: nat)
    modifies db
    ensures (db.View(), purged) == A.PurgeExpiredSessions(old(db.View()), now)
    ensures db.saved == old(db.saved)
  {
    var gone := set s | s in db.sessions && db.sessions[s].expiresAt <= now;
    assert gone == ExpiredSessions(db.View(), now);
    db.DeleteSessions(gone);
    return |gone|;
  }

  // ---- Second factor ----------------------------------------------------------------------------------

  method RecordTotpFailure(db: Db, a: nat, failed: nat, now: nat) returns (until: Option<nat>)
    requires a in db.accounts && failed == db.accounts[a].failed
    modifies db
    ensures (db.View(), until) == A.RecordTotpFailure(old(db.View()), a, now)
    ensures db.saved == old(db.saved)
  {
    var count := failed + 1;
    if count >= TOTP_ACCOUNT_LOCK_THRESHOLD {
      var end := now + TOTP_ACCOUNT_LOCK_MS;
      db.UpdateAccount(a, db.accounts[a].(failed := 0, lockedUntil := Some(end)));
      db.DeleteSessions(set s | s in db.sessions && db.sessions[s].account == a && !db.sessions[s].verified);
      return Some(end);
    }
    db.UpdateAccount(a, db.accounts[a].(failed := count));
    return None;
  }

  /** `verifyTotp` of the enrolled secret, if there is one. */
  method MatchCode(env: Env, acc: Account, code: seq<ascii>, now: nat) returns (step: Option<int>)
    ensures step == CodeStep(env, acc, code, now)
  {
    if acc.secret.None? || acc.enabledAt.None? {
      return None;
    }
    step := SearchWindow(Codes(env, acc.secret.value), code, now, acc.lastStep);
  }

  /** Marks the unused rows that hold the code; it succeeds if there is one. */
  method ConsumeRecoveryCode(db: Db, a: nat, code: seq<ascii>) returns (ok: bool)
    modifies db
    ensures (db.View(), ok) == A.ConsumeRecoveryCode(old(db.View()), a, code)
    ensures db.saved == old(db.saved)
  {
    var norm := NormalizeRecoveryCode(code);
    if |norm| != 10 || a !in db.codes {
      return false;
    }
    var rows := db.codes[a];
    var changes, i, updated := 0, 0, [];
    while i < |rows|
      invariant 0 <= i <= |rows| && |updated| == i
      invariant forall k :: 0 <= k < i ==> updated[k] == CodeRow(rows[k].code, rows[k].used || rows[k].code == norm)
      invariant changes > 0 <==> CodeRow(norm, false) in rows[..i]
    {
      if rows[i].code == norm && !rows[i].used {
        changes := changes + 1;
        updated := updated + [CodeRow(norm, true)];
      } else {
        updated := updated + [rows[i]];
      }
      i := i + 1;
    }
    assert rows[..|rows|] == rows;
    if changes > 0 {
      assert updated == Redeemed(rows, code);
      db.codes := db.codes[a := updated];
    }
    return changes > 0;
  }

  method VerifySessionTotp(db: Db, env: Env, s: nat, code: seq<ascii>, now: nat, born: nat,
                           publicId: nat) returns (r: LoginResult)
    requires db.saved.None?
    modifies db
    ensures (db.View(), r) == A.VerifySessionTotp(old(db.View()), env, s, code, now, born, publicId)
    ensures db.saved.None?
  {
    db.Begin();
    if s !in db.sessions {
      db.Commit();
      return LoginLocked(None);
    }
    var a, attempts := db.sessions[s].account, db.sessions[s].attempts + 1;
    if a !in db.accounts || !HasSecondFactor(db.View(), a) {
      db.Commit();
      return LoginInvalid;
    }
    var acc := db.accounts[a];
    if IsTotpLocked(acc, now) {
      db.Commit();
      return LoginLocked(acc.lockedUntil);
    }
    var step := MatchCode(env, acc, code, now);
    var factor: Option<Factor> := None;
    if step.Some? {
      db.UpdateAccount(a, acc.(lastStep := step));
      factor := Some(ByTotp);
    } else {
      var consumed := ConsumeRecoveryCode(db, a, code);
      if consumed {
        factor := Some(ByRecovery);
      }
    }
    if factor.Some? {
      CompleteSecondFactor(db, env, s, a, born, publicId, now, factor.value);
      db.Commit();
      return LoginOk(factor.value);
    }
    var until := RecordTotpFailure(db, a, acc.failed, now);
    if until.Some? {
      db.Commit();
      return LoginLocked(until);
    }
    if attempts >= MAX_TOTP_ATTEMPTS {
      db.DeleteSessions({s});
      db.Commit();
      return LoginLocked(None);
    }
    db.UpdateSession(s, db.sessions[s].(attempts := attempts));
    db.Commit();
    return LoginInvalid;
  }

  method VerifyConfirmCode(db: Db, env: Env, a: nat, code: seq<ascii>, now: nat) returns (r: ConfirmResult)
    requires db.saved.None?
    modifies db
    ensures (db.View(), r) == A.VerifyConfirmCode(old(db.View()), env, a, code, now)
    ensures db.saved.None?
  {
    db.Begin();
    if a !in db.accounts {
      db.Commit();
      return ConfirmInvalid;
    }
    var acc := db.accounts[a];
    if IsTotpLocked(acc, now) {
      db.Commit();
      return ConfirmLocked;
    }
    var step := MatchCode(env, acc, code, now);
    if step.Some? {
      db.UpdateAccount(a, acc.(lastStep := step, failed := 0));
      db.Commit();
      return ConfirmOk;
    }
    var consumed := ConsumeRecoveryCode(db, a, code);
    if consumed {
      db.Commit();
      return ConfirmOk;
    }
    var until := RecordTotpFailure(db, a, acc.failed, now);
    db.Commit();
    return if until.Some? then ConfirmLocked else ConfirmInvalid;
  }

  // ---- Enrolment and recovery codes -------------------------------------------------------------------

  /** Deletes the old codes and stores the new ones as they are compared; returns them as they are shown. */
  method ReplaceRecoveryCodes(db: Db, a: nat, random: seq<seq<byte>>) returns (shown: seq<seq<ascii>>)
    requires Draws(random)
    modifies db
    ensures db.View() == A.ReplaceRecoveryCodes(old(db.View()), a, random)
    ensures db.saved == old(db.saved)
    ensures |shown| == RECOVERY_CODES && forall i :: 0 <= i < RECOVERY_CODES ==> shown[i] == ShownCode(random[i])
  {
    shown := GenerateRecoveryCodes(random);
    var i, rows := 0, [];
    while i < |shown|
      invariant 0 <= i <= |shown| && |rows| == i
      invariant forall k :: 0 <= k < i ==> rows[k] == CodeRow(NormalizeRecoveryCode(ShownCode(random[k])), false)
    {
      rows := rows + [CodeRow(NormalizeRecoveryCode(shown[i]), false)];
      i := i + 1;
    }
    assert rows == FreshRows(random);
    db.codes := db.codes[a := rows];
  }

  method BeginTotpEnrolment(db: Db, a: nat, secret: nat) returns (ok: bool)
    modifies db
    ensures (db.View(), ok) == A.BeginTotpEnrolment(old(db.View()), a, secret)
    ensures db.saved == old(db.saved)
  {
    if a !in db.accounts || db.accounts[a].enabledAt.Some? {
      return false;
    }
    db.UpdateAccount(a, db.accounts[a].(secret := Some(secret), lastStep := None));
    return true;
  }

  method ConfirmTotpEnrolment(db: Db, env: Env, a: nat, code: seq<ascii>, now: nat, random: seq<seq<byte>>)
    returns (shown: Option<seq<seq<ascii>>>)
    requires db.saved.None? && Draws(random)
    modifies db
    ensures (db.View(), shown.Some?) == A.ConfirmTotpEnrolment(old(db.View()), env, a, code, now, random)
    ensures shown.Some? ==> |shown.value| == RECOVERY_CODES && forall i :: 0 <= i < RECOVERY_CODES ==>
              shown.value[i] == ShownCode(random[i])
    ensures db.saved.None?
  {
    db.Begin();
    if a !in db.accounts || db.accounts[a].secret.None? || db.accounts[a].enabledAt.Some? {
      db.Commit();
      return None;
    }
    var acc := db.accounts[a];
    var step := SearchWindow(Codes(env, acc.secret.value), code, now, None);
    assert step == EnrolStep(env, acc, code, now);
    if step.None? {
      db.Commit();
      return None;
    }
    db.UpdateAccount(a, acc.(enabledAt := Some(now), lastStep := step));
    db.sessions := map s | s in db.sessions ::
      if db.sessions[s].account == a then db.sessions[s].(verified := true) else db.sessions[s];
    var codes := ReplaceRecoveryCodes(db, a, random);
    db.Commit();
    return Some(codes);
  }

  method RegenerateRecoveryCodes(db: Db, env: Env, a: nat, code: seq<ascii>, now: nat, random: seq<seq<byte>>)
    returns (shown: Option<seq<seq<ascii>>>)
    requires db.saved.None? && Draws(random)
    modifies db
    ensures (db.View(), shown.Some?) == A.RegenerateRecoveryCodes(old(db.View()), env, a, code, now, random)
    ensures db.saved.None?
  {
    db.Begin();
    if a !in db.accounts {
      db.Commit();
      return None;
    }
    var step := MatchCode(env, db.accounts[a], code, now);
    if step.None? {
      db.Commit();
      return None;
    }
    db.UpdateAccount(a, db.accounts[a].(lastStep := step));
    var codes := ReplaceRecoveryCodes(db, a, random);
    db.Commit();
    return Some(codes);
  }

  method RegenerateRecoveryCodesConfirmed(db: Db, a: nat,
                                          random: seq<seq<byte>>) returns (shown: Option<seq<seq<ascii>>>)
    requires db.saved.None? && Draws(random)
    modifies db
    ensures (db.View(), shown.Some?) == A.RegenerateRecoveryCodesConfirmed(old(db.View()), a, random)
    ensures db.saved.None?
  {
    db.Begin();
    if a !in db.accounts || !HasSecondFactor(db.View(), a) {
      db.Commit();
      return None;
    }
    var codes := ReplaceRecoveryCodes(db, a, random);
    db.Commit();
    return Some(codes);
  }

  method DropRecoveryCodesIfUnused(db: Db, a: nat)
    modifies db
    ensures db.View() == A.DropRecoveryCodesIfUnused(old(db.View()), a)
    ensures db.saved == old(db.saved)
  {
    if a in db.accounts && !HasSecondFactor(db.View(), a) {
      db.codes := db.codes - {a};
    }
  }

  method ForceDisableTotp(db: Db, a: nat, keep: Option<nat>)
    modifies db
    ensures db.View() == A.ForceDisableTotp(old(db.View()), a, keep)
    ensures db.saved == old(db.saved)
  {
    if a in db.accounts {
      db.UpdateAccount(a, db.accounts[a].(secret := None, enabledAt := None, lastStep := None, failed := 0,
                                          lockedUntil := None));
    }
    DropRecoveryCodesIfUnused(db, a);
    var kept := if keep.Some? then {keep.value} else {};
    db.DeleteSessions((set s | s in db.sessions && db.sessions[s].account == a) - kept);
  }

  method DisableTotp(db: Db, env: Env, a: nat, code: seq<ascii>, keep: nat, now: nat) returns (ok: bool)
    requires db.saved.None?
    modifies db
    ensures (db.View(), ok) == A.DisableTotp(old(db.View()), env, a, code, keep, now)
    ensures db.saved.None?
  {
    db.Begin();
    if a !in db.accounts || db.accounts[a].secret.None? || db.accounts[a].enabledAt.None? {
      db.Commit();
      return false;
    }
    var step := MatchCode(env, db.accounts[a], code, now);
    if step.None? {
      var consumed := ConsumeRecoveryCode(db, a, code);
      if !consumed {
        db.Commit();
        return false;
      }
    }
    ForceDisableTotp(db, a, Some(keep));
    db.Commit();
    return true;
  }

  method ResetSecondFactors(db: Db, a: nat)
    requires db.saved.None?
    modifies db
    ensures db.View() == A.ResetSecondFactors(old(db.View()), a)
    ensures db.saved.None?
  {
    db.Begin();
    db.passkeys := map c | c in db.passkeys && db.passkeys[c].account != a :: db.passkeys[c];
    ForceDisableTotp(db, a, None);
    db.Commit();
  }
}
