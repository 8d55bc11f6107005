/** Device-bound sessions (src/services/sessions.ts). Proofs are judged by src/dbsc.ts, which is not modelled. */
module Bindings {
  import opened Common
  import opened Tables
  import opened Auth

  const BOUND_COOKIE_TTL_MS: nat := 10 * 60000
  const DBSC_CHALLENGE_TTL_MS: nat := 30 * 60000
  const GRACE_MS: nat := 60000

  /** A proof whose signature matches `key`, answering the challenge `jti`; `valid` is false for anything malformed. */
  datatype Proof = Proof(valid: bool, key: nat, jti: nat)

  predicate Bound(t: Tables, s: nat) {
    exists b :: b in t.bindings && t.bindings[b].session == s
  }

  /** session_hash is UNIQUE. */
  predicate OnePerSession(bindings: map<nat, Binding>) {
    forall a, b :: a in bindings && b in bindings && a != b ==> bindings[a].session != bindings[b].session
  }

  predicate Offerable(t: Tables, s: nat) {
    s in t.sessions && t.sessions[s].offeredAt.None? && !Bound(t, s) && t.sessions[s].verified
  }

  function OfferBinding(t: Tables, s: nat, challenge: nat, now: nat): (Tables, bool) {
    if !Offerable(t, s) then (t, false)
    else (WithSession(t, s, t.sessions[s].(offerChallenge := Some(challenge), offeredAt := Some(now))), true)
  }

  predicate Registrable(t: Tables, s: nat, proof: Proof) {
    && proof.valid
    && s in t.sessions && t.sessions[s].verified && !Bound(t, s)
    && t.sessions[s].offerChallenge == Some(proof.jti)
  }

  function RegisterBinding(t: Tables, s: nat, proof: Proof, b: nat, cookie: nat, now: nat): (Tables, bool) {
    if !Registrable(t, s, proof) then (t, false)
    else
      var row := Binding(s, proof.key, Timed(cookie, now + BOUND_COOKIE_TTL_MS), None, None);
      var bound := t.(bindings := t.bindings[b := row]);
      (WithSession(bound, s, t.sessions[s].(offerChallenge := None)), true)
  }

  datatype RefreshResult = Ended | Refused | Challenged | Renewed

  predicate SessionAlive(t: Tables, s: nat, now: nat) {
    && s in t.sessions && t.sessions[s].account in t.accounts
    && t.sessions[s].expiresAt > now && t.accounts[t.sessions[s].account].disabledAt.None?
  }

  predicate Answers(b: Binding, proof: Proof, now: nat) {
    b.challenge.Some? && b.challenge.value.expiresAt > now && b.challenge.value.value == proof.jti
  }

  function RefreshBinding(t: Tables, b: nat, proof: Option<Proof>, cookie: nat, challenge: nat, now: nat): (Tables,
      RefreshResult) {
    if b !in t.bindings || !SessionAlive(t, t.bindings[b].session, now) then (t, Ended)
    else
      var row := t.bindings[b];
      var next := Some(Timed(challenge, now + DBSC_CHALLENGE_TTL_MS));
      // a proof that does not match the stored key is refused outright
      if proof.Some? && !(proof.value.valid && proof.value.key == row.key) then (t, Refused)
      else if proof.None? || !Answers(row, proof.value, now) then
        (t.(bindings := t.bindings[b := row.(challenge := next)]), Challenged)
      else
        (t.(bindings := t.bindings[b := row.(previous := Some(row.cookie), cookie := Timed(cookie,
            now + BOUND_COOKIE_TTL_MS), challenge := next)]), Renewed)
  }

  /** The cookie was issued to this binding and its deadline plus the grace period has not passed. */
  predicate CookieGood(c: Timed, cookie: nat, now: nat) {
    c.value == cookie && c.expiresAt + GRACE_MS > now
  }

  predicate Accepted(b: Binding, cookie: nat, now: nat) {
    CookieGood(b.cookie, cookie, now) || (b.previous.Some? && CookieGood(b.previous.value, cookie, now))
  }

  datatype CookieCheck = Unbound | Good | Rejected

  predicate AcceptedFor(t: Tables, s: nat, cookie: nat, now: nat) {
    exists b :: b in t.bindings && t.bindings[b].session == s && Accepted(t.bindings[b], cookie, now)
  }

  function CheckBoundCookie(t: Tables, s: nat, cookie: Option<nat>, now: nat): CookieCheck {
    if !Bound(t, s) then Unbound
    else if cookie.None? then Rejected
    else if AcceptedFor(t, s, cookie.value, now) then Good
    else Rejected
  }

  function RevokeSession(t: Tables, a: nat, publicId: nat): (Tables, bool) {
    var gone := set s | s in t.sessions && t.sessions[s].account == a && t.sessions[s].publicId == publicId;
    (EndSessions(t, gone), gone != {})
  }
}
