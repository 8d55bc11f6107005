/** Sessions, authenticator apps, recovery codes and lockout (src/services/auth.ts). */
module Auth {
  import opened Common
  import opened Base32
  import opened Totp
  import opened Tables
  import WebAuthn

  const MIN_PASSWORD_LENGTH: nat := 12
  const MAX_TOTP_ATTEMPTS: nat := 5
  const TOTP_ACCOUNT_LOCK_THRESHOLD: nat := 10
  const TOTP_ACCOUNT_LOCK_MS: nat := 15 * 60000
  const RECOVERY_CODES: nat := 8

  /** Configuration, and what is left to cryptography: `hotp` of a secret at a step, keys and signatures. */
  datatype Env = Env(
    sessionTtlMs: nat,
    reauthWindowMs: nat,
    requireTotp: bool,
    origin: string,
    rpIdHash: seq<byte>,
    hotp: (nat, int) -> seq<ascii>,
    keys: WebAuthn.Keys)

  // ---- Passwords --------------------------------------------------------------------------------------

  predicate Authenticates(t: Tables, a: nat, password: string) {
    a in t.accounts && t.accounts[a].password == password && t.accounts[a].disabledAt.None?
  }

  function NewAccount(password: string, role: Role, mustChange: bool): Account {
    Account(password, role, None, mustChange, None, None, None, 0, None)
  }

  function CreateAdmin(t: Tables, a: nat, password: string): (Tables, bool) {
    if |password| < MIN_PASSWORD_LENGTH then (t, false)
    else (WithAccount(t, a, NewAccount(password, Admin, false)), true)
  }

  function SetAdminPassword(t: Tables, a: nat, password: string): (Tables, bool) {
    if |password| < MIN_PASSWORD_LENGTH || a !in t.accounts then (t, false)
    else (EndSessions(WithAccount(t, a, t.accounts[a].(password := password, mustChange := false)),
                      SessionsOf(t, a)), true)
  }

  function ChangeAdminPassword(t: Tables, a: nat, current: string, next: string): (Tables, bool) {
    if |next| < MIN_PASSWORD_LENGTH || a !in t.accounts || t.accounts[a].password != current
      || next == current then (t, false)
    else (WithAccount(t, a, t.accounts[a].(password := next, mustChange := false)), true)
  }

  // ---- Sessions ---------------------------------------------------------------------------------------

  /** Complete at once without a second factor, pending otherwise. */
  function CreateSession(t: Tables, env: Env, a: nat, s: nat, publicId: nat, now: nat): Tables {
    WithSession(t, s, Session(a, now + env.sessionTtlMs, !HasSecondFactor(t, a), 0, publicId, None, None, None, None,
                              None))
  }

  function MarkConfirmed(t: Tables, env: Env, s: nat, now: nat): Tables {
    if s in t.sessions then WithSession(t, s, t.sessions[s].(confirmedUntil := Some(now + env.reauthWindowMs))) else t
  }

  /** The pending session is replaced by a fresh, verified one. */
  function CompleteSecondFactor(t: Tables, env: Env, pending: nat, a: nat, s: nat, publicId: nat, now: nat,
                                factor: Factor): Tables
    requires a in t.accounts
  {
    var reset := WithAccount(t, a, t.accounts[a].(failed := 0, lockedUntil := None));
    var started := CreateSession(EndSessions(reset, {pending}), env, a, s, publicId, now);
    WithSession(started, s, started.sessions[s].(verified := true, factor := Some(factor)))
  }

  /** The row behind a session cookie: gone if it has expired or its account is disabled. */
  function GetSession(t: Tables, s: nat, now: nat): (Tables, bool) {
    if s !in t.sessions || t.sessions[s].account !in t.accounts then (t, false)
    else if t.sessions[s].expiresAt <= now || t.accounts[t.sessions[s].account].disabledAt.Some? then (EndSessions(t,
        {s}), false)
    else (t, true)
  }

  /** What `getSession` reports as `totpVerified`. */
  predicate ReportedVerified(t: Tables, s: nat)
    requires s in t.sessions
  {
    !HasSecondFactor(t, t.sessions[s].account) || t.sessions[s].verified
  }

  function DestroyOtherSessions(t: Tables, a: nat, keep: nat): Tables {
    EndSessions(t, SessionsOf(t, a) - {keep})
  }

  function ExpiredSessions(t: Tables, now: nat): set<nat> {
    set s | s in t.sessions && t.sessions[s].expiresAt <= now
  }

  function PurgeExpiredSessions(t: Tables, now: nat): (Tables, nat) {
    (EndSessions(t, ExpiredSessions(t, now)), |ExpiredSessions(t, now)|)
  }

  // ---- Lockout ----------------------------------------------------------------------------------------

  predicate IsTotpLocked(acc: Account, now: nat) {
    acc.lockedUntil.Some? && acc.lockedUntil.value > now
  }

  function PendingSessionsOf(t: Tables, a: nat): set<nat> {
    set s | s in t.sessions && t.sessions[s].account == a && !t.sessions[s].verified
  }

  /** A wrong code; the lock's end when it was the last one allowed. */
  function RecordTotpFailure(t: Tables, a: nat, now: nat): (Tables, Option<nat>)
    requires a in t.accounts
  {
    var count := t.accounts[a].failed + 1;
    if count >= TOTP_ACCOUNT_LOCK_THRESHOLD then
      var until := now + TOTP_ACCOUNT_LOCK_MS;
      var locked := WithAccount(t, a, t.accounts[a].(failed := 0, lockedUntil := Some(until)));
      (EndSessions(locked, PendingSessionsOf(t, a)), Some(until))
    else (WithAccount(t, a, t.accounts[a].(failed := count)), None)
  }

  // ---- Codes ------------------------------------------------------------------------------------------

  /** The codes an app holding `secret` shows, step by step. */
  function Codes(env: Env, secret: nat): int -> seq<ascii> {
    step => env.hotp(secret, step)
  }

  /** The step a code from the enrolled app matches, newer than the last one accepted. */
  function CodeStep(env: Env, acc: Account, code: seq<ascii>, now: nat): Option<int> {
    if acc.secret.Some? && acc.enabledAt.Some? then
      VerifyTotp(Codes(env, acc.secret.value), code, now, acc.lastStep)
    else None
  }

  predicate Redeemable(rows: seq<CodeRow>, code: seq<ascii>) {
    |NormalizeRecoveryCode(code)| == 10 && CodeRow(NormalizeRecoveryCode(code), false) in rows
  }

  function Redeemed(rows: seq<CodeRow>, code: seq<ascii>): (r: seq<CodeRow>)
    ensures |r| == |rows|
    ensures forall i :: 0 <= i < |rows| ==>
      r[i] == CodeRow(rows[i].code, rows[i].used || rows[i].code == NormalizeRecoveryCode(code))
  {
    if rows == [] then []
    else
      var last := rows[|rows| - 1];
      Redeemed(rows[..|rows| - 1], code) + [CodeRow(last.code, last.used || last.code == NormalizeRecoveryCode(code))]
  }

  function ConsumeRecoveryCode(t: Tables, a: nat, code: seq<ascii>): (Tables, bool) {
    if Redeemable(CodesOf(t, a), code) then (t.(codes := t.codes[a := Redeemed(CodesOf(t, a), code)]), true)
    else (t, false)
  }

  datatype LoginResult = LoginOk(factor: Factor) | LoginInvalid | LoginLocked(until: Option<nat>)

  function VerifySessionTotp(t: Tables, env: Env, s: nat, code: seq<ascii>, now: nat, born: nat,
                             publicId: nat): (Tables, LoginResult) {
    if s !in t.sessions then (t, LoginLocked(None))
    else
      var a := t.sessions[s].account;
      if a !in t.accounts || !HasSecondFactor(t, a) then (t, LoginInvalid)
      else if IsTotpLocked(t.accounts[a], now) then (t, LoginLocked(t.accounts[a].lockedUntil))
      else
        var step := CodeStep(env, t.accounts[a], code, now);
        if step.Some? then
          var stepped := WithAccount(t, a, t.accounts[a].(lastStep := step));
          (CompleteSecondFactor(stepped, env, s, a, born, publicId, now, ByTotp), LoginOk(ByTotp))
        else
          var (consumed, ok) := ConsumeRecoveryCode(t, a, code);
          if ok then (CompleteSecondFactor(consumed, env, s, a, born, publicId, now, ByRecovery), LoginOk(ByRecovery))
          else CountSessionFailure(t, s, RecordTotpFailure(t, a, now))
  }

  /** After a wrong code at login: the account may be locked, or this session has used up its attempts. */
  function CountSessionFailure(t: Tables, s: nat, recorded: (Tables, Option<nat>)): (Tables, LoginResult)
    requires s in t.sessions
  {
    var attempts := t.sessions[s].attempts + 1;
    if recorded.1.Some? then (recorded.0, LoginLocked(recorded.1))
    else if attempts >= MAX_TOTP_ATTEMPTS then (EndSessions(recorded.0, {s}), LoginLocked(None))
    else (WithSession(recorded.0, s, t.sessions[s].(attempts := attempts)), LoginInvalid)
  }

  datatype ConfirmResult = ConfirmOk | ConfirmInvalid | ConfirmLocked

  function VerifyConfirmCode(t: Tables, env: Env, a: nat, code: seq<ascii>, now: nat): (Tables, ConfirmResult) {
    if a !in t.accounts then (t, ConfirmInvalid)
    else if IsTotpLocked(t.accounts[a], now) then (t, ConfirmLocked)
    else
      var step := CodeStep(env, t.accounts[a], code, now);
      if step.Some? then (WithAccount(t, a, t.accounts[a].(lastStep := step, failed := 0)), ConfirmOk)
      else
        var (consumed, ok) := ConsumeRecoveryCode(t, a, code);
        if ok then (consumed, ConfirmOk)
        else
          var (failed, until) := RecordTotpFailure(t, a, now);
          (failed, if until.Some? then ConfirmLocked else ConfirmInvalid)
  }

  // ---- Enrolment and recovery codes -------------------------------------------------------------------

  predicate Draws(random: seq<seq<byte>>) {
    |random| == RECOVERY_CODES && forall i :: 0 <= i < |random| ==> |random[i]| == 7
  }

  function FreshRows(random: seq<seq<byte>>): (rows: seq<CodeRow>)
    requires forall i :: 0 <= i < |random| ==> |random[i]| == 7
    ensures |rows| == |random|
    ensures forall i :: 0 <= i < |rows| ==> rows[i] == CodeRow(NormalizeRecoveryCode(ShownCode(random[i])), false)
  {
    if random == [] then []
    else FreshRows(random[..|random| - 1]) + [CodeRow(NormalizeRecoveryCode(ShownCode(random[|random| - 1])), false)]
  }

  /** Every code, entered as it was shown, opens the row it was stored in. */
  lemma ShownCodesWork(random: seq<seq<byte>>, i: nat)
    requires Draws(random) && i < RECOVERY_CODES
    ensures Redeemable(FreshRows(random), ShownCode(random[i]))
  {
    ShownCodeNormalizes(random[i]);
    assert FreshRows(random)[i] == CodeRow(NormalizeRecoveryCode(ShownCode(random[i])), false);
  }

  function ReplaceRecoveryCodes(t: Tables, a: nat, random: seq<seq<byte>>): Tables
    requires Draws(random)
  {
    t.(codes := t.codes[a := FreshRows(random)])
  }

  function BeginTotpEnrolment(t: Tables, a: nat, secret: nat): (Tables, bool) {
    if a !in t.accounts || t.accounts[a].enabledAt.Some? then (t, false)
    else (WithAccount(t, a, t.accounts[a].(secret := Some(secret), lastStep := None)), true)
  }

  /** The step a code matches while its secret is still pending; no earlier step has been accepted yet. */
  function EnrolStep(env: Env, acc: Account, code: seq<ascii>, now: nat): Option<int> {
    if acc.secret.Some? && acc.enabledAt.None? then
      VerifyTotp(Codes(env, acc.secret.value), code, now, None)
    else None
  }

  function VerifyAllSessions(t: Tables, a: nat): Tables {
    t.(sessions := map s | s in t.sessions ::
         if t.sessions[s].account == a then t.sessions[s].(verified := true) else t.sessions[s])
  }

  function ConfirmTotpEnrolment(t: Tables, env: Env, a: nat, code: seq<ascii>, now: nat,
                                random: seq<seq<byte>>): (Tables, bool)
    requires Draws(random)
  {
    if a !in t.accounts then (t, false)
    else
      var step := EnrolStep(env, t.accounts[a], code, now);
      if step.None? then (t, false)
      else
        var enabled := WithAccount(t, a, t.accounts[a].(enabledAt := Some(now), lastStep := step));
        (ReplaceRecoveryCodes(VerifyAllSessions(enabled, a), a, random), true)
  }

  function RegenerateRecoveryCodes(t: Tables, env: Env, a: nat, code: seq<ascii>, now: nat,
                                   random: seq<seq<byte>>): (Tables, bool)
    requires Draws(random)
  {
    if a !in t.accounts then (t, false)
    else
      var step := CodeStep(env, t.accounts[a], code, now);
      if step.None? then (t, false)
      else (ReplaceRecoveryCodes(WithAccount(t, a, t.accounts[a].(lastStep := step)), a, random), true)
  }

  function RegenerateRecoveryCodesConfirmed(t: Tables, a: nat, random: seq<seq<byte>>): (Tables, bool)
    requires Draws(random)
  {
    if a !in t.accounts || !HasSecondFactor(t, a) then (t, false) else (ReplaceRecoveryCodes(t, a, random), true)
  }

  function DropRecoveryCodesIfUnused(t: Tables, a: nat): Tables {
    if a in t.accounts && !HasSecondFactor(t, a) then t.(codes := t.codes - {a}) else t
  }

  /** The update and the check for leftover codes change nothing when there is no such account. */
  function ForceDisableTotp(t: Tables, a: nat, keep: Option<nat>): Tables {
    var cleared := if a !in t.accounts then t
                   else WithAccount(t, a,
                                    t.accounts[a].(secret := None, enabledAt := None, lastStep := None, failed := 0,
                                                   lockedUntil := None));
    EndSessions(DropRecoveryCodesIfUnused(cleared, a), SessionsOf(t, a) - (if keep.Some? then {keep.value} else {}))
  }

  /** Whether `disableTotp` accepts the code: the app's, or an unused recovery code. */
  function DisableTotp(t: Tables, env: Env, a: nat, code: seq<ascii>, keep: nat, now: nat): (Tables, bool) {
    if a !in t.accounts || t.accounts[a].secret.None? || t.accounts[a].enabledAt.None? then (t, false)
    else if CodeStep(env, t.accounts[a], code, now).Some? then (ForceDisableTotp(t, a, Some(keep)), true)
    else
      var (consumed, ok) := ConsumeRecoveryCode(t, a, code);
      if ok then (ForceDisableTotp(consumed, a, Some(keep)), true) else (t, false)
  }

  function WithoutPasskeysOf(t: Tables, a: nat): Tables {
    t.(passkeys := map c | c in t.passkeys && t.passkeys[c].account != a :: t.passkeys[c])
  }

  function ResetSecondFactors(t: Tables, a: nat): Tables {
    ForceDisableTotp(WithoutPasskeysOf(t, a), a, None)
  }
}
