/**
 * Passkey ceremonies: a challenge leads to at most one success, in the session and for the
 * purpose it was issued for and within five minutes; an attempt to sign in or confirm spends
 * it whether or not it succeeds; and signature counters only go up.
 */
module PanelCeremonies {
  import opened Common
  import opened Tables
  import opened Auth
  import opened Passkeys
  import opened Panel
  import opened PanelMoves
  import opened PanelSteps
  import W = WebAuthn

  /** A pending challenge is one that was issued to this session, has its five minutes and is not spent. */
  predicate CeremonyOk(row: Session, s: nat, h: History) {
    row.ceremony.Some? ==>
      var c := row.ceremony.value;
      && c.challenge in h.issued && c.challenge !in h.spent
      && h.issued[c.challenge].session == s && h.issued[c.challenge].purpose == c.purpose
      && c.expiresAt == h.issued[c.challenge].at + CEREMONY_TTL_MS
  }

  predicate Inv(m: Machine) {
    && m.h.spent <= m.h.issued.Keys <= m.used
    && (forall s :: s in m.t.sessions ==> CeremonyOk(m.t.sessions[s], s, m.h))
    && (forall c :: c in m.t.passkeys ==> m.t.passkeys[c].id in m.used)
  }

  lemma AskKeeps(env: Env, e: Event, m: Machine, mv: Move)
    requires Inv(m) && Allowed(env, e, m, mv) && (mv.Ask? || mv.Spend?)
    ensures Inv(Apply(env, e, m, mv))
  {
    var m' := Apply(env, e, m, mv);
    assert CeremonyOk(m.t.sessions[mv.s], mv.s, m.h);
    forall s | s in m'.t.sessions ensures CeremonyOk(m'.t.sessions[s], s, m'.h) {
      assert CeremonyOk(m.t.sessions[s], s, m.h);
    }
  }

  lemma CeremonyStays(env: Env, e: Event, m: Machine, mv: Move, s: nat)
    requires Allowed(env, e, m, mv) && !mv.Ask? && !mv.Spend? && (OnSession(mv) || mv.Bind?)
    requires s in Apply(env, e, m, mv).t.sessions
    ensures var row := Apply(env, e, m, mv).t.sessions[s];
            row.ceremony.None? || (s in m.t.sessions && row.ceremony == m.t.sessions[s].ceremony)
  {
  }

  lemma OtherSessionMoveKeeps(env: Env, e: Event, m: Machine, mv: Move)
    requires Inv(m) && Allowed(env, e, m, mv) && !mv.Ask? && !mv.Spend? && (OnSession(mv) || mv.Bind?)
    ensures Inv(Apply(env, e, m, mv))
  {
    var m' := Apply(env, e, m, mv);
    Frame(env, e, m, mv);
    HistoryFrame(env, e, m, mv);
    forall s | s in m'.t.sessions ensures CeremonyOk(m'.t.sessions[s], s, m'.h) {
      CeremonyStays(env, e, m, mv, s);
      assert s in m.t.sessions ==> CeremonyOk(m.t.sessions[s], s, m.h);
    }
  }

  lemma MoveKeeps(env: Env, e: Event, m: Machine, mv: Move)
    requires Inv(m) && Allowed(env, e, m, mv)
    ensures Inv(Apply(env, e, m, mv))
  {
    var m' := Apply(env, e, m, mv);
    if mv.Ask? || mv.Spend? {
      AskKeeps(env, e, m, mv);
    } else if OnSession(mv) || mv.Bind? {
      OtherSessionMoveKeeps(env, e, m, mv);
    } else {
      Frame(env, e, m, mv);
      HistoryFrame(env, e, m, mv);
      PasskeyIdsKeep(env, e, m, mv);
      forall s | s in m'.t.sessions ensures CeremonyOk(m'.t.sessions[s], s, m'.h) {
        assert CeremonyOk(m.t.sessions[s], s, m.h);
      }
    }
  }

  lemma PasskeyIdsKeep(env: Env, e: Event, m: Machine, mv: Move)
    requires Allowed(env, e, m, mv) && forall c :: c in m.t.passkeys ==> m.t.passkeys[c].id in m.used
    ensures var m' := Apply(env, e, m, mv); forall c :: c in m'.t.passkeys ==> m'.t.passkeys[c].id in m'.used
  {
    Frame(env, e, m, mv);
  }

  lemma {:induction false} MovesKeep(env: Env, e: Event, m: Machine, mvs: seq<Move>, m': Machine)
    requires Inv(m) && Path(env, e, m, mvs, m')
    ensures Inv(m')
    decreases |mvs|
  {
    if mvs != [] {
      MoveKeeps(env, e, m, mvs[0]);
      MovesKeep(env, e, Apply(env, e, m, mvs[0]), mvs[1..], m');
    }
  }

  lemma {:induction false} RunKeepsInv(env: Env, ms: seq<Machine>, es: seq<Event>, i: nat)
    requires Run(env, ms, es) && i < |ms|
    ensures Inv(ms[i])
  {
    if i > 0 {
      RunKeepsInv(env, ms, es, i - 1);
      assert StepAt(env, ms, es, i - 1);
      StepIsMoves(env, es[i - 1], ms[i - 1]);
      var mvs :| Path(env, es[i - 1], ms[i - 1], mvs, ms[i]);
      MovesKeep(env, es[i - 1], ms[i - 1], mvs, ms[i]);
    }
  }

  // ---- Where challenges come from, and that they stay spent -------------------------------------------

  /** Challenges keep what they were issued for; new ones come from a request for options in this step. */
  predicate Issues(e: Event, m: Machine, m': Machine) {
    && m.h.spent <= m'.h.spent
    && (e.Arrives? ==> m'.now == m.now)
    && (forall c :: c in m.h.issued ==> c in m'.h.issued && m'.h.issued[c] == m.h.issued[c])
    && (forall c :: c in m'.h.issued && c !in m.h.issued ==>
          c in Names(e) && AsksFor(e, m'.h.issued[c].session, m'.h.issued[c].purpose) && m'.h.issued[c].at == m.now)
  }

  lemma MoveIssues(env: Env, e: Event, m: Machine, mv: Move)
    requires Inv(m) && Allowed(env, e, m, mv)
    ensures Issues(e, m, Apply(env, e, m, mv))
  {
    Frame(env, e, m, mv);
    HistoryFrame(env, e, m, mv);
  }

  lemma {:induction false} MovesIssue(env: Env, e: Event, m: Machine, mvs: seq<Move>, m': Machine)
    requires Inv(m) && Path(env, e, m, mvs, m')
    ensures Issues(e, m, m')
    decreases |mvs|
  {
    if mvs != [] {
      MoveKeeps(env, e, m, mvs[0]);
      MoveIssues(env, e, m, mvs[0]);
      MovesIssue(env, e, Apply(env, e, m, mvs[0]), mvs[1..], m');
    }
  }

  lemma StepIssues(env: Env, ms: seq<Machine>, es: seq<Event>, i: nat)
    requires Run(env, ms, es) && i < |es|
    ensures Issues(es[i], ms[i], ms[i + 1])
  {
    RunKeepsInv(env, ms, es, i);
    assert StepAt(env, ms, es, i);
    StepIsMoves(env, es[i], ms[i]);
    var mvs :| Path(env, es[i], ms[i], mvs, ms[i + 1]);
    MovesIssue(env, es[i], ms[i], mvs, ms[i + 1]);
  }

  lemma {:induction false} IssuedAtSomeStep(env: Env, ms: seq<Machine>, es: seq<Event>, j: nat, c: nat)
    requires Run(env, ms, es) && j < |ms| && c in ms[j].h.issued
    ensures exists i :: 0 <= i < j && c in Names(es[i])
              && AsksFor(es[i], ms[j].h.issued[c].session, ms[j].h.issued[c].purpose)
                     && ms[i].now == ms[j].h.issued[c].at
  {
    if j > 0 {
      StepIssues(env, ms, es, j - 1);
      if c in ms[j - 1].h.issued {
        IssuedAtSomeStep(env, ms, es, j - 1, c);
      }
    }
  }

  lemma {:induction false} SpentStays(env: Env, ms: seq<Machine>, es: seq<Event>, i: nat, j: nat)
    requires Run(env, ms, es) && i <= j < |ms|
    ensures ms[i].h.spent <= ms[j].h.spent
  {
    if i < j {
      SpentStays(env, ms, es, i, j - 1);
      StepIssues(env, ms, es, j - 1);
    }
  }

  // ---- Attempts ---------------------------------------------------------------------------------------

  /** The challenge the session of this request has pending, whatever it is for. */
  function PendingChallenge(m: Machine, e: Event): Option<nat>
    requires e.Arrives?
  {
    var t := Gate(m.t, e.s, e.bound, m.now).0;
    if e.s in t.sessions && t.sessions[e.s].ceremony.Some? then Some(t.sessions[e.s].ceremony.value.challenge) else None
  }

  /** A passkey attempt reaches its handler. */
  predicate Attempts(m: Machine, env: Env, e: Event, purpose: Purpose) {
    && e.Arrives? && AnswersFor(e, e.s, purpose)
    && var (t, passed) := Gate(m.t, e.s, e.bound, m.now);
    && passed && Admitted(t, env, e.s, m.now, e.r)
    && (purpose.ForLogin? ==> !ReportedVerified(t, e.s))
  }

  predicate Succeeds(m: Machine, env: Env, e: Event, purpose: Purpose)
    requires Attempts(m, env, e, purpose)
  {
    var t := Gate(m.t, e.s, e.bound, m.now).0;
    var a := t.sessions[e.s].account;
    match purpose
    case ForLogin => AssertionOutcome(t, env, e.s, a, ForLogin, e.r.l.credential, e.r.l.assertion, m.now).Ok?
    case ForConfirm => AssertionOutcome(t, env, e.s, a, ForConfirm, e.r.c.credential, e.r.c.assertion, m.now).Ok?
    case ForRegister => RegistrationOutcome(t, env, e.s, a, e.r.f.registration, m.now).Ok?
  }

  lemma LoginSpends(m: Machine, env: Env, s: nat, l: LoginStep)
    requires s in m.t.sessions && m.t.sessions[s].account in m.t.accounts && l.LoginPasskey? && !ReportedVerified(m.t, s)
    requires m.t.sessions[s].ceremony.Some?
    ensures m.t.sessions[s].ceremony.value.challenge in DoLogin(m, env, s, l).h.spent
  {
  }

  lemma ConfirmSpends(m: Machine, env: Env, s: nat, c: ConfirmStep)
    requires s in m.t.sessions && m.t.sessions[s].account in m.t.accounts && c.WithPasskey?
    requires m.t.sessions[s].ceremony.Some?
    ensures m.t.sessions[s].ceremony.value.challenge in DoConfirm(m, env, s, c).h.spent
  {
  }

  lemma RegistrationSpends(m: Machine, env: Env, s: nat, f: FactorStep)
    requires s in m.t.sessions && m.t.sessions[s].account in m.t.accounts && f.AddPasskey? && DrawnCodes(f)
    requires m.t.sessions[s].ceremony.Some?
    requires RegistrationOutcome(m.t, env, s, m.t.sessions[s].account, f.registration, m.now).Ok?
    ensures m.t.sessions[s].ceremony.value.challenge in DoFactor(m, env, s, f).h.spent
  {
  }

  lemma FailedRegistrationChangesNothing(m: Machine, env: Env, s: nat, f: FactorStep)
    requires s in m.t.sessions && m.t.sessions[s].account in m.t.accounts && f.AddPasskey? && DrawnCodes(f)
    requires RegistrationOutcome(m.t, env, s, m.t.sessions[s].account, f.registration, m.now).Err?
    ensures DoFactor(m, env, s, f) == m
  {
  }

  /** A success, and any attempt to sign in or confirm, spends the pending challenge. */
  lemma AttemptSpends(m: Machine, env: Env, e: Event, purpose: Purpose)
    requires Drawn(m.used, e) && Attempts(m, env, e, purpose) && PendingChallenge(m, e).Some?
    requires purpose.ForRegister? ==> Succeeds(m, env, e, purpose)
    ensures PendingChallenge(m, e).value in Step(m, env, e).h.spent
  {
    var m1 := m.(t := Gate(m.t, e.s, e.bound, m.now).0);
    assert Handle(m, env, e) == DoRequest(m1, env, e.s, e.r);
    if purpose.ForLogin? {
      LoginSpends(m1, env, e.s, e.r.l);
    } else if purpose.ForConfirm? {
      ConfirmSpends(m1, env, e.s, e.r.c);
    } else {
      RegistrationSpends(m1, env, e.s, e.r.f);
    }
  }

  /** The lookup of the session leaves its pending challenge as it is. */
  lemma PendingIsStored(m: Machine, e: Event)
    requires e.Arrives? && PendingChallenge(m, e).Some?
    ensures e.s in m.t.sessions && m.t.sessions[e.s].ceremony.Some?
    ensures m.t.sessions[e.s].ceremony.value.challenge == PendingChallenge(m, e).value
    ensures Gate(m.t, e.s, e.bound, m.now).0.sessions[e.s] == m.t.sessions[e.s]
  {
  }

  /** A success needs a pending challenge, for its purpose and not yet expired. */
  lemma SuccessNeedsPending(m: Machine, env: Env, e: Event, purpose: Purpose)
    requires Attempts(m, env, e, purpose) && Succeeds(m, env, e, purpose)
    ensures PendingChallenge(m, e).Some?
    ensures e.s in m.t.sessions && m.t.sessions[e.s].ceremony.Some?
    ensures m.t.sessions[e.s].ceremony.value.purpose == purpose && m.now < m.t.sessions[e.s].ceremony.value.expiresAt
  {
  }

  /**
   * Once an attempt to sign in or confirm, or a successful registration, has had a challenge
   * pending, no later attempt of any kind finds it pending again: it leads to one success at most.
   */
  lemma ChallengesServeOnce(env: Env, ms: seq<Machine>, es: seq<Event>, i: nat, j: nat, p: Purpose, q: Purpose)
    requires Run(env, ms, es) && i < j < |es|
    requires Attempts(ms[i], env, es[i], p) && PendingChallenge(ms[i], es[i]).Some?
    requires p.ForRegister? ==> Succeeds(ms[i], env, es[i], p)
    requires Attempts(ms[j], env, es[j], q)
    ensures PendingChallenge(ms[j], es[j]) != PendingChallenge(ms[i], es[i])
  {
    assert StepAt(env, ms, es, i);
    AttemptSpends(ms[i], env, es[i], p);
    SpentStays(env, ms, es, i + 1, j);
    RunKeepsInv(env, ms, es, j);
    if PendingChallenge(ms[j], es[j]).Some? {
      PendingIsStored(ms[j], es[j]);
      assert CeremonyOk(ms[j].t.sessions[es[j].s], es[j].s, ms[j].h);
    }
  }

  /**
   * Unlike an attempt to sign in or confirm, a registration spends its challenge exactly when it
   * succeeds: a failed one is rolled back with everything it did, so it can be tried again.
   */
  lemma RegistrationSpendsIffItSucceeds(env: Env, ms: seq<Machine>, es: seq<Event>, i: nat)
    requires Run(env, ms, es) && i < |es|
    requires Attempts(ms[i], env, es[i], ForRegister) && PendingChallenge(ms[i], es[i]).Some?
    ensures PendingChallenge(ms[i], es[i]).value in ms[i + 1].h.spent <==> Succeeds(ms[i], env, es[i], ForRegister)
    ensures !Succeeds(ms[i], env, es[i], ForRegister) ==> ms[i + 1].t == ms[i].t && ms[i + 1].h == ms[i].h
  {
    var m, e := ms[i], es[i];
    assert StepAt(env, ms, es, i);
    RunKeepsInv(env, ms, es, i);
    PendingIsStored(m, e);
    assert CeremonyOk(m.t.sessions[e.s], e.s, m.h);
    if Succeeds(m, env, e, ForRegister) {
      AttemptSpends(m, env, e, ForRegister);
    } else {
      FailedRegistrationChangesNothing(m, env, e.s, e.r.f);
    }
  }

  /** A success answers a challenge requested earlier by the same session for the same purpose, less than five minutes ago. */
  lemma SuccessAnswersItsOwnRequest(env: Env, ms: seq<Machine>, es: seq<Event>, j: nat, purpose: Purpose)
    requires Run(env, ms, es) && j < |es|
    requires Attempts(ms[j], env, es[j], purpose) && Succeeds(ms[j], env, es[j], purpose)
    ensures PendingChallenge(ms[j], es[j]).Some?
    ensures exists i :: 0 <= i < j && PendingChallenge(ms[j], es[j]).value in Names(es[i])
                     && AsksFor(es[i], es[j].s, purpose) && ms[j].now < ms[i].now + CEREMONY_TTL_MS
  {
    var s := es[j].s;
    RunKeepsInv(env, ms, es, j);
    SuccessNeedsPending(ms[j], env, es[j], purpose);
    assert CeremonyOk(ms[j].t.sessions[s], s, ms[j].h);
    PendingIsStored(ms[j], es[j]);
    IssuedAtSomeStep(env, ms, es, j, ms[j].t.sessions[s].ceremony.value.challenge);
  }

  // ---- Counters ---------------------------------------------------------------------------------------

  /** A passkey that is still the same one has a counter at least as high. */
  predicate CountsUp(m: Machine, m': Machine) {
    && m.used <= m'.used
    && forall c :: c in m'.t.passkeys && m'.t.passkeys[c].id in m.used ==>
         c in m.t.passkeys && m'.t.passkeys[c].id == m.t.passkeys[c].id
           && m.t.passkeys[c].signCount <= m'.t.passkeys[c].signCount
  }

  lemma PasskeyMoveCountsUp(env: Env, e: Event, m: Machine, mv: Move)
    requires Allowed(env, e, m, mv) && OnPasskeys(mv)
    ensures CountsUp(m, Apply(env, e, m, mv))
  {
  }

  lemma MoveCountsUp(env: Env, e: Event, m: Machine, mv: Move)
    requires Allowed(env, e, m, mv)
    ensures CountsUp(m, Apply(env, e, m, mv))
  {
    if OnPasskeys(mv) {
      PasskeyMoveCountsUp(env, e, m, mv);
    } else {
      Frame(env, e, m, mv);
    }
  }

  lemma {:induction false} MovesCountUp(env: Env, e: Event, m: Machine, mvs: seq<Move>, m': Machine)
    requires Path(env, e, m, mvs, m')
    ensures CountsUp(m, m')
    decreases |mvs|
  {
    if mvs != [] {
      MoveCountsUp(env, e, m, mvs[0]);
      MovesCountUp(env, e, Apply(env, e, m, mvs[0]), mvs[1..], m');
    }
  }

  lemma StepCountsUp(env: Env, ms: seq<Machine>, es: seq<Event>, i: nat)
    requires Run(env, ms, es) && i < |es|
    ensures CountsUp(ms[i], ms[i + 1])
  {
    assert StepAt(env, ms, es, i);
    StepIsMoves(env, es[i], ms[i]);
    var mvs :| Path(env, es[i], ms[i], mvs, ms[i + 1]);
    MovesCountUp(env, es[i], ms[i], mvs, ms[i + 1]);
  }

  /** The stored counter of a passkey never decreases, for as long as it is registered. */
  lemma {:induction false} CountersNeverDecrease(env: Env, ms: seq<Machine>, es: seq<Event>, i: nat, j: nat, c: seq<byte>)
    requires Run(env, ms, es) && i <= j < |ms|
    requires c in ms[i].t.passkeys && c in ms[j].t.passkeys && ms[i].t.passkeys[c].id == ms[j].t.passkeys[c].id
    ensures ms[i].t.passkeys[c].signCount <= ms[j].t.passkeys[c].signCount
  {
    if i < j {
      RunKeepsInv(env, ms, es, i);
      UsedGrows(env, ms, es, i, j - 1);
      StepCountsUp(env, ms, es, j - 1);
      CountersNeverDecrease(env, ms, es, i, j - 1, c);
    }
  }

  lemma {:induction false} UsedGrows(env: Env, ms: seq<Machine>, es: seq<Event>, i: nat, j: nat)
    requires Run(env, ms, es) && i <= j < |ms|
    ensures ms[i].used <= ms[j].used
  {
    if i < j {
      UsedGrows(env, ms, es, i, j - 1);
      StepCountsUp(env, ms, es, j - 1);
    }
  }

  /** An accepted assertion raises the stored counter, or neither side has one. */
  lemma AcceptedAssertionCounts(t: Tables, env: Env, s: nat, a: nat, purpose: Purpose, c: seq<byte>,
                                input: W.AssertionInput, now: nat)
    requires AssertionOutcome(t, env, s, a, purpose, c, input, now).Ok?
    ensures c in t.passkeys && t.passkeys[c].account == a
    ensures var t' := CheckAssertion(t, env, s, a, purpose, c, input, now).0;
            && t'.passkeys == t.passkeys[c := t.passkeys[c].(signCount := t'.passkeys[c].signCount)]
            && (t'.passkeys[c].signCount > t.passkeys[c].signCount
                || t'.passkeys[c].signCount == t.passkeys[c].signCount == 0)
  {
    var pk := t.passkeys[c];
    W.CounterAdvances(env.keys, input, pk.publicKey, pk.algorithm, pk.signCount,
                      Expect(env, Pending(t, s, purpose, now).value));
  }
}
