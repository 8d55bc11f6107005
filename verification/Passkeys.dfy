/** Passkey ceremonies on the tables (src/services/passkeys.ts). */
module Passkeys {
  import opened Common
  import opened Tables
  import opened Auth
  import W = WebAuthn

  const CEREMONY_TTL_MS: nat := 5 * 60000
  const MAX_PASSKEYS: nat := 10

  function PasskeysOf(t: Tables, a: nat): set<seq<byte>> {
    set c | c in t.passkeys && t.passkeys[c].account == a
  }

  /** A fresh challenge, replacing any pending one. */
  function BeginCeremony(t: Tables, s: nat, purpose: Purpose, challenge: nat, now: nat): Tables {
    if s in t.sessions then WithSession(t, s,
                                        t.sessions[s].(ceremony := Some(Ceremony(challenge, purpose,
                                            now + CEREMONY_TTL_MS)))) else t
  }

  /** The pending challenge, if it is for this purpose and has not expired. */
  function Pending(t: Tables, s: nat, purpose: Purpose, now: nat): Option<nat> {
    if s in t.sessions && t.sessions[s].ceremony.Some? && t.sessions[s].ceremony.value.purpose == purpose
       && t.sessions[s].ceremony.value.expiresAt > now
    then Some(t.sessions[s].ceremony.value.challenge)
    else None
  }

  /** Takes the challenge off the session, whatever it was for. */
  function TakeChallenge(t: Tables, s: nat): Tables {
    if s in t.sessions then WithSession(t, s, t.sessions[s].(ceremony := None)) else t
  }

  function Expect(env: Env, challenge: nat): W.Expected {
    W.Expected(challenge, env.origin, env.rpIdHash)
  }

  /** The outcome of a registration before anything is written. */
  function RegistrationOutcome(t: Tables, env: Env, s: nat, a: nat, input: W.RegistrationInput,
                               now: nat): Result<W.Registration, W.WebAuthnError> {
    var challenge := Pending(t, s, ForRegister, now);
    if challenge.None? then Err(W.NoPendingChallenge)
    else
      match W.VerifyRegistration(env.keys, input, Expect(env, challenge.value))
      case Err(e) => Err(e)
      case Ok(reg) =>
        if |PasskeysOf(t, a)| >= MAX_PASSKEYS then Err(W.TooManyPasskeys)
        else if reg.credentialId in t.passkeys then Err(W.AlreadyRegistered)
        else Ok(reg)
  }

  /** A failed registration rolls its transaction back, challenge included. */
  function RegisterPasskey(t: Tables, env: Env, s: nat, a: nat, input: W.RegistrationInput, now: nat,
                           id: nat): (Tables, Option<W.WebAuthnError>) {
    match RegistrationOutcome(t, env, s, a, input, now)
    case Err(e) => (t, Some(e))
    case Ok(reg) =>
      var taken := TakeChallenge(t, s);
      var saved := taken.(passkeys := taken.passkeys[reg.credentialId := Passkey(id, a, reg.publicKey,
          reg.algorithm, reg.signCount)]);
      (if s in saved.sessions then WithSession(saved, s, saved.sessions[s].(verified := true)) else saved, None)
  }

  /** The new counter of an accepted assertion. */
  function AssertionOutcome(t: Tables, env: Env, s: nat, a: nat, purpose: Purpose, credential: seq<byte>,
                            input: W.AssertionInput, now: nat)
    : Result<nat, W.WebAuthnError>
  {
    var challenge := Pending(t, s, purpose, now);
    if challenge.None? then Err(W.NoPendingChallenge)
    else if credential !in t.passkeys || t.passkeys[credential].account != a then Err(W.UnknownPasskey)
    else
      var pk := t.passkeys[credential];
      W.VerifyAssertion(env.keys, input, pk.publicKey, pk.algorithm, pk.signCount, Expect(env, challenge.value))
  }

  /** An attempt spends the challenge; an accepted one also records the counter. */
  function CheckAssertion(t: Tables, env: Env, s: nat, a: nat, purpose: Purpose, credential: seq<byte>,
                          input: W.AssertionInput, now: nat)
    : (Tables, Option<W.WebAuthnError>)
  {
    var taken := TakeChallenge(t, s);
    match AssertionOutcome(t, env, s, a, purpose, credential, input, now)
    case Err(e) => (taken, Some(e))
    case Ok(count) =>
      if credential in taken.passkeys then
        (taken.(passkeys := taken.passkeys[credential := taken.passkeys[credential].(signCount := count)]), None)
      else (taken, None)
  }

  function VerifyPasskeyLogin(t: Tables, env: Env, s: nat, a: nat, credential: seq<byte>, input: W.AssertionInput,
                              now: nat, born: nat, publicId: nat)
    : (Tables, Option<W.WebAuthnError>)
    requires a in t.accounts
  {
    var (checked, error) := CheckAssertion(t, env, s, a, ForLogin, credential, input, now);
    if error.Some? then (checked, error)
    else (CompleteSecondFactor(checked, env, s, a, born, publicId, now, ByPasskey), None)
  }

  function VerifyPasskeyConfirm(t: Tables, env: Env, s: nat, a: nat, credential: seq<byte>, input: W.AssertionInput,
                                now: nat)
    : (Tables, Option<W.WebAuthnError>)
  {
    CheckAssertion(t, env, s, a, ForConfirm, credential, input, now)
  }

  function Owned(t: Tables, a: nat, id: nat): set<seq<byte>> {
    set c | c in t.passkeys && t.passkeys[c].account == a && t.passkeys[c].id == id
  }

  /** Every other session of the account ends with the passkey. */
  function RemovePasskey(t: Tables, a: nat, id: nat, keep: nat): (Tables, bool) {
    if Owned(t, a, id) == {} then (t, false)
    else
      var removed := DropRecoveryCodesIfUnused(t.(passkeys := t.passkeys - Owned(t, a, id)), a);
      (DestroyOtherSessions(removed, a, keep), true)
  }
}
