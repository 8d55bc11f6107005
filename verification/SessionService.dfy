/** The statements of src/services/sessions.ts, each proved to do what module Bindings says of the tables. */
module SessionService {
  import opened Common
  import opened Tables
  import opened Database
  import opened Bindings
  import B = Bindings

  method RevokeSession(db: Db, a: nat, publicId: nat) returns (revoked: bool)
    modifies db
    ensures (db.View(), revoked) == B.RevokeSession(old(db.View()), a, publicId)
    ensures db.saved == old(db.saved)
  {
    var gone := set s | s in db.sessions && db.sessions[s].account == a && db.sessions[s].publicId == publicId;
    db.DeleteSessions(gone);
    return gone != {};
  }

  method OfferBinding(db: Db, s: nat, challenge: nat, now: nat) returns (offered: Option<nat>)
    requires db.saved.None?
    modifies db
    ensures (db.View(), offered.Some?) == B.OfferBinding(old(db.View()), s, challenge, now)
    ensures offered.Some? ==> offered.value == challenge
    ensures db.saved.None?
  {
    db.Begin();
    if s !in db.sessions || db.sessions[s].offeredAt.Some? || Bound(db.View(), s) || !db.sessions[s].verified {
      db.Commit();
      return None;
    }
    db.UpdateSession(s, db.sessions[s].(offerChallenge := Some(challenge), offeredAt := Some(now)));
    db.Commit();
    return Some(challenge);
  }

  /** Errors are thrown before anything is written, so there is nothing to undo. */
  method RegisterBinding(db: Db, s: nat, proof: Proof, b: nat, cookie: nat, now: nat) returns (ok: bool)
    requires db.saved.None?
    modifies db
    ensures (db.View(), ok) == B.RegisterBinding(old(db.View()), s, proof, b, cookie, now)
    ensures db.saved.None?
  {
    if !proof.valid {
      return false;
    }
    db.Begin();
    if s !in db.sessions || !db.sessions[s].verified || Bound(db.View(), s)
      || db.sessions[s].offerChallenge != Some(proof.jti) {
      db.Rollback();
      return false;
    }
    db.bindings := db.bindings[b := Binding(s, proof.key, Timed(cookie, now + BOUND_COOKIE_TTL_MS), None, None)];
    db.UpdateSession(s, db.sessions[s].(offerChallenge := None));
    db.Commit();
    return true;
  }

  method RefreshBinding(db: Db, b: nat, proof: Option<Proof>, cookie: nat, challenge: nat,
                        now: nat) returns (r: RefreshResult)
    modifies db
    ensures (db.View(), r) == B.RefreshBinding(old(db.View()), b, proof, cookie, challenge, now)
    ensures db.saved == old(db.saved)
  {
    if b !in db.bindings {
      return Ended;
    }
    var row := db.bindings[b];
    if row.session !in db.sessions || db.sessions[row.session].account !in db.accounts
       || db.sessions[row.session].expiresAt <= now || db.accounts[db.sessions[row.session].account].disabledAt.Some? {
      return Ended;
    }
    var next := Some(Timed(challenge, now + DBSC_CHALLENGE_TTL_MS));
    if proof.None? {
      db.bindings := db.bindings[b := row.(challenge := next)];
      return Challenged;
    }
    if !proof.value.valid || proof.value.key != row.key {
      return Refused;
    }
    if row.challenge.None? || row.challenge.value.expiresAt <= now || proof.value.jti != row.challenge.value.value {
      db.bindings := db.bindings[b := row.(challenge := next)];
      return Challenged;
    }
    db.bindings := db.bindings[b :=
      row.(previous := Some(row.cookie), cookie := Timed(cookie, now + BOUND_COOKIE_TTL_MS), challenge := next)];
    return Renewed;
  }

  /** A bound session only counts together with a current bound cookie, or the one before it. */
  method CheckBoundCookie(db: Db, s: nat, cookie: Option<nat>, now: nat) returns (r: CookieCheck)
    requires OnePerSession(db.bindings)
    ensures r == B.CheckBoundCookie(db.View(), s, cookie, now)
  {
    if !Bound(db.View(), s) {
      return Unbound;
    }
    if cookie.None? {
      return Rejected;
    }
    var b :| b in db.bindings && db.bindings[b].session == s;
    var row, cutoff := db.bindings[b], now - GRACE_MS;
    if cookie.value == row.cookie.value && row.cookie.expiresAt > cutoff {
      assert Accepted(db.View().bindings[b], cookie.value, now);
      return Good;
    }
    if row.previous.Some? && cookie.value == row.previous.value.value && row.previous.value.expiresAt > cutoff {
      assert Accepted(db.View().bindings[b], cookie.value, now);
      return Good;
    }
    return Rejected;
  }
}
