/**
 * Device-bound sessions: at most two cookies are accepted at a time, each only for eleven
 * minutes after it was issued; a refresh leaves the cookie it replaces valid until its own
 * deadline; device challenges are answered at most once; and a session is offered a binding
 * once, has at most one, and keeps its key.
 */
module PanelBindings {
  import opened Common
  import opened Tables
  import opened Auth
  import opened Bindings
  import opened Panel
  import opened PanelMoves
  import opened PanelSteps

  // ---- Invariant --------------------------------------------------------------------------------------

  /** The cookie was issued for binding `b`, ten minutes before it expires. */
  predicate CookieOk(c: Timed, b: nat, h: History) {
    c.value in h.cookies && h.cookies[c.value].binding == b && c.expiresAt == h.cookies[c.value].at + BOUND_COOKIE_TTL_MS
  }

  predicate Unanswered(c: nat, owner: DeviceChallenge, h: History) {
    c in h.deviceChallenges && h.deviceChallenges[c] == owner && c !in h.answered
  }

  predicate BindingOk(row: Binding, b: nat, h: History) {
    && CookieOk(row.cookie, b, h)
    && (row.previous.Some? ==> CookieOk(row.previous.value, b, h))
    && (row.challenge.Some? ==> Unanswered(row.challenge.value.value, IssuedFor(b), h))
  }

  predicate OfferOk(row: Session, s: nat, h: History) {
    && (row.offerChallenge.Some? ==> Unanswered(row.offerChallenge.value, OfferedTo(s), h))
    && (s in h.offered ==> row.offeredAt.Some?)
  }

  predicate Known(m: Machine) {
    && m.t.sessions.Keys <= m.used && m.t.bindings.Keys <= m.used && m.h.offered <= m.used
    && m.h.answered <= m.h.deviceChallenges.Keys <= m.used && m.h.cookies.Keys <= m.used
  }

  predicate Inv(m: Machine) {
    && Known(m) && OnePerSession(m.t.bindings)
    && (forall s :: s in m.t.sessions ==> OfferOk(m.t.sessions[s], s, m.h))
    && (forall b :: b in m.t.bindings ==> BindingOk(m.t.bindings[b], b, m.h))
  }

  lemma KnownKeepsHere(env: Env, e: Event, m: Machine, mv: Move)
    requires Inv(m) && Allowed(env, e, m, mv) && (OnBinding(mv) || mv.Offer?)
    ensures Known(Apply(env, e, m, mv))
  {
    if mv.Bind? {
      assert OfferOk(m.t.sessions[mv.s], mv.s, m.h);
    } else if mv.Renew? {
      assert BindingOk(m.t.bindings[mv.b], mv.b, m.h);
    } else if mv.Offer? {
    }
  }

  lemma KnownKeeps(env: Env, e: Event, m: Machine, mv: Move)
    requires Inv(m) && Allowed(env, e, m, mv)
    ensures Known(Apply(env, e, m, mv))
  {
    if OnBinding(mv) || mv.Offer? {
      KnownKeepsHere(env, e, m, mv);
    } else {
      var m' := Apply(env, e, m, mv);
      Frame(env, e, m, mv);
      HistoryFrame(env, e, m, mv);
      if mv.Start? {
        assert m'.t.sessions.Keys == m.t.sessions.Keys + {mv.s} && mv.s in m'.used;
      } else if OnSession(mv) {
        assert m'.t.sessions.Keys <= m.t.sessions.Keys;
      }
    }
  }

  lemma OfferKeeps(env: Env, e: Event, m: Machine, mv: Move)
    requires Inv(m) && Allowed(env, e, m, mv) && mv.Offer?
    ensures Inv(Apply(env, e, m, mv))
  {
    var m' := Apply(env, e, m, mv);
    KnownKeeps(env, e, m, mv);
    forall s | s in m'.t.sessions ensures OfferOk(m'.t.sessions[s], s, m'.h) {
      assert OfferOk(m.t.sessions[s], s, m.h);
    }
    forall b | b in m'.t.bindings ensures BindingOk(m'.t.bindings[b], b, m'.h) {
      assert BindingOk(m.t.bindings[b], b, m.h);
    }
  }

  lemma BindKeepsRows(env: Env, e: Event, m: Machine, mv: Move)
    requires Inv(m) && Allowed(env, e, m, mv) && mv.Bind?
    ensures var m' := Apply(env, e, m, mv);
            && (forall s :: s in m'.t.sessions ==> OfferOk(m'.t.sessions[s], s, m'.h))
            && (forall b :: b in m'.t.bindings ==> BindingOk(m'.t.bindings[b], b, m'.h))
  {
    var m' := Apply(env, e, m, mv);
    assert OfferOk(m.t.sessions[mv.s], mv.s, m.h);
    forall s | s in m'.t.sessions ensures OfferOk(m'.t.sessions[s], s, m'.h) {
      assert OfferOk(m.t.sessions[s], s, m.h);
    }
    forall b | b in m'.t.bindings ensures BindingOk(m'.t.bindings[b], b, m'.h) {
      assert b in m.t.bindings ==> BindingOk(m.t.bindings[b], b, m.h);
    }
  }

  lemma BindKeeps(env: Env, e: Event, m: Machine, mv: Move)
    requires Inv(m) && Allowed(env, e, m, mv) && mv.Bind?
    ensures Inv(Apply(env, e, m, mv))
  {
    KnownKeeps(env, e, m, mv);
    BindKeepsRows(env, e, m, mv);
    assert !Bound(m.t, mv.s);
    assert OnePerSession(Apply(env, e, m, mv).t.bindings);
  }

  lemma RefreshMoveKeeps(env: Env, e: Event, m: Machine, mv: Move)
    requires Inv(m) && Allowed(env, e, m, mv) && (mv.Rechallenge? || mv.Renew?)
    ensures Inv(Apply(env, e, m, mv))
  {
    var m' := Apply(env, e, m, mv);
    KnownKeeps(env, e, m, mv);
    assert BindingOk(m.t.bindings[mv.b], mv.b, m.h);
    forall s | s in m'.t.sessions ensures OfferOk(m'.t.sessions[s], s, m'.h) {
      assert OfferOk(m.t.sessions[s], s, m.h);
    }
    forall b | b in m'.t.bindings ensures BindingOk(m'.t.bindings[b], b, m'.h) {
      assert BindingOk(m.t.bindings[b], b, m.h);
    }
  }

  lemma OfferStays(env: Env, e: Event, m: Machine, mv: Move, s: nat)
    requires Allowed(env, e, m, mv) && OnSession(mv) && !mv.Offer? && s in Apply(env, e, m, mv).t.sessions
    ensures var row := Apply(env, e, m, mv).t.sessions[s];
            || (s !in m.used && row.offerChallenge.None?)
            || (s in m.t.sessions && row.offerChallenge == m.t.sessions[s].offerChallenge
                && row.offeredAt == m.t.sessions[s].offeredAt)
  {
  }

  /** Any other move leaves the offers, and the bindings that remain, as they are. */
  lemma OtherMoveKeeps(env: Env, e: Event, m: Machine, mv: Move)
    requires Inv(m) && Allowed(env, e, m, mv) && !mv.Offer? && !OnBinding(mv)
    ensures Inv(Apply(env, e, m, mv))
  {
    var m' := Apply(env, e, m, mv);
    Frame(env, e, m, mv);
    HistoryFrame(env, e, m, mv);
    KnownKeeps(env, e, m, mv);
    BindingsStay(env, e, m, mv);
    forall s | s in m'.t.sessions ensures OfferOk(m'.t.sessions[s], s, m'.h) {
      if OnSession(mv) {
        OfferStays(env, e, m, mv, s);
      }
      assert s in m.t.sessions ==> OfferOk(m.t.sessions[s], s, m.h);
    }
    forall b | b in m'.t.bindings ensures BindingOk(m'.t.bindings[b], b, m'.h) {
      assert BindingOk(m.t.bindings[b], b, m.h);
    }
  }

  lemma BindingsStay(env: Env, e: Event, m: Machine, mv: Move)
    requires Allowed(env, e, m, mv) && !OnBinding(mv)
    ensures var m' := Apply(env, e, m, mv);
            forall b :: b in m'.t.bindings ==> b in m.t.bindings && m'.t.bindings[b] == m.t.bindings[b]
  {
    Frame(env, e, m, mv);
  }

  lemma MoveKeeps(env: Env, e: Event, m: Machine, mv: Move)
    requires Inv(m) && Allowed(env, e, m, mv)
    ensures Inv(Apply(env, e, m, mv))
  {
    if mv.Offer? {
      OfferKeeps(env, e, m, mv);
    } else if mv.Bind? {
      BindKeeps(env, e, m, mv);
    } else if mv.Rechallenge? || mv.Renew? {
      RefreshMoveKeeps(env, e, m, mv);
    } else {
      OtherMoveKeeps(env, e, m, mv);
    }
  }

  lemma {:induction false} MovesKeep(env: Env, e: Event, m: Machine, mvs: seq<Move>, m': Machine)
    requires Inv(m) && Path(env, e, m, mvs, m')
    ensures Inv(m')
    decreases |mvs|
  {
    if mvs != [] {
      MoveKeeps(env, e, m, mvs[0]);
      MovesKeep(env, e, Apply(env, e, m, mvs[0]), mvs[1..], m');
    }
  }

  lemma {:induction false} RunKeepsInv(env: Env, ms: seq<Machine>, es: seq<Event>, i: nat)
    requires Run(env, ms, es) && i < |ms|
    ensures Inv(ms[i])
  {
    if i > 0 {
      RunKeepsInv(env, ms, es, i - 1);
      assert StepAt(env, ms, es, i - 1);
      StepIsMoves(env, es[i - 1], ms[i - 1]);
      var mvs :| Path(env, es[i - 1], ms[i - 1], mvs, ms[i]);
      MovesKeep(env, es[i - 1], ms[i - 1], mvs, ms[i]);
    }
  }

  // ---- One step ---------------------------------------------------------------------------------------

  /** The step brings a registration or renewal of `b` that issues `cookie`. */
  predicate IssuesCookie(e: Event, b: nat, cookie: nat) {
    || (e.Arrives? && e.r.SessionRequest? && e.r.x.Bind? && e.r.x.binding == b && e.r.x.cookie == cookie)
    || (e.Refresh? && e.b == b && e.cookie == cookie)
  }

  /** What a step may do to bindings and their history. */
  predicate Advances(e: Event, m: Machine, m': Machine) {
    && m.used <= m'.used && m.h.answered <= m'.h.answered && m.h.offered <= m'.h.offered
    && (!e.Tick? ==> m'.now == m.now)
    && (forall b :: b in m'.t.bindings && b in m.used ==>
          b in m.t.bindings && m'.t.bindings[b].key == m.t.bindings[b].key
            && m'.t.bindings[b].session == m.t.bindings[b].session)
    && (forall b :: b in m'.t.bindings && b in m.used && !(e.Refresh? && e.b == b) ==>
          m'.t.bindings[b] == m.t.bindings[b])
    && (forall c :: c in m'.h.cookies && c !in m.h.cookies ==>
          IssuesCookie(e, m'.h.cookies[c].binding, c) && m'.h.cookies[c].at == m.now)
    && (forall c :: c in m.h.cookies ==> c in m'.h.cookies && m'.h.cookies[c] == m.h.cookies[c])
  }

  lemma BindWrites(env: Env, e: Event, m: Machine, mv: Move)
    requires Allowed(env, e, m, mv) && mv.Bind?
    ensures var m' := Apply(env, e, m, mv);
            && m.used <= m'.used && m'.now == m.now && m'.h.offered == m.h.offered && m.h.answered <= m'.h.answered
            && mv.b !in m.used && mv.b in m'.t.bindings && m'.t.bindings == m.t.bindings[mv.b := m'.t.bindings[mv.b]]
            && mv.cookie !in m.used && m'.h.cookies == m.h.cookies[mv.cookie := IssuedCookie(mv.b, m.now)]
            && Registers(e, mv.s, mv.proof, mv.b, mv.cookie)
  {
  }

  lemma BindAdvances(env: Env, e: Event, m: Machine, mv: Move)
    requires Inv(m) && Allowed(env, e, m, mv) && mv.Bind?
    ensures Advances(e, m, Apply(env, e, m, mv))
  {
    BindWrites(env, e, m, mv);
  }

  lemma RenewAdvances(env: Env, e: Event, m: Machine, mv: Move)
    requires Inv(m) && Allowed(env, e, m, mv) && mv.Renew?
    ensures Advances(e, m, Apply(env, e, m, mv))
  {
    var m' := Apply(env, e, m, mv);
    assert m'.t.bindings == m.t.bindings[mv.b := m'.t.bindings[mv.b]];
  }

  lemma RechallengeAdvances(env: Env, e: Event, m: Machine, mv: Move)
    requires Inv(m) && Allowed(env, e, m, mv) && mv.Rechallenge?
    ensures Advances(e, m, Apply(env, e, m, mv))
  {
    assert Apply(env, e, m, mv).h.cookies == m.h.cookies;
  }

  lemma MoveAdvances(env: Env, e: Event, m: Machine, mv: Move)
    requires Inv(m) && Allowed(env, e, m, mv)
    ensures Advances(e, m, Apply(env, e, m, mv))
  {
    if mv.Bind? {
      BindAdvances(env, e, m, mv);
    } else if mv.Renew? {
      RenewAdvances(env, e, m, mv);
    } else if mv.Rechallenge? {
      RechallengeAdvances(env, e, m, mv);
    } else {
      Frame(env, e, m, mv);
      HistoryFrame(env, e, m, mv);
      BindingsStay(env, e, m, mv);
      if mv.Offer? {
        assert Apply(env, e, m, mv).h.offered == m.h.offered + {mv.s};
      }
    }
  }

  lemma {:induction false} MovesAdvance(env: Env, e: Event, m: Machine, mvs: seq<Move>, m': Machine)
    requires Inv(m) && Path(env, e, m, mvs, m')
    ensures Advances(e, m, m')
    decreases |mvs|
  {
    if mvs != [] {
      MoveKeeps(env, e, m, mvs[0]);
      MoveAdvances(env, e, m, mvs[0]);
      MovesAdvance(env, e, Apply(env, e, m, mvs[0]), mvs[1..], m');
    }
  }

  lemma StepAdvances(env: Env, ms: seq<Machine>, es: seq<Event>, i: nat)
    requires Run(env, ms, es) && i < |es|
    ensures Advances(es[i], ms[i], ms[i + 1])
  {
    RunKeepsInv(env, ms, es, i);
    assert StepAt(env, ms, es, i);
    StepIsMoves(env, es[i], ms[i]);
    var mvs :| Path(env, es[i], ms[i], mvs, ms[i + 1]);
    MovesAdvance(env, es[i], ms[i], mvs, ms[i + 1]);
  }

  // ---- Cookies ----------------------------------------------------------------------------------------

  lemma {:induction false} CookieIssuedAtSomeStep(env: Env, ms: seq<Machine>, es: seq<Event>, j: nat, c: nat)
    requires Run(env, ms, es) && j < |ms| && c in ms[j].h.cookies
    ensures exists i :: 0 <= i < j && IssuesCookie(es[i], ms[j].h.cookies[c].binding, c)
              && ms[i].now == ms[j].h.cookies[c].at
  {
    if j > 0 {
      StepAdvances(env, ms, es, j - 1);
      if c in ms[j - 1].h.cookies {
        CookieIssuedAtSomeStep(env, ms, es, j - 1, c);
      }
    }
  }

  /** The one binding whose cookie satisfies the check. */
  lemma GoodCookieHasABinding(t: Tables, s: nat, cookie: nat, now: nat) returns (b: nat)
    requires CheckBoundCookie(t, s, Some(cookie), now).Good?
    ensures b in t.bindings && t.bindings[b].session == s && Accepted(t.bindings[b], cookie, now)
  {
    b :| b in t.bindings && t.bindings[b].session == s && Accepted(t.bindings[b], cookie, now);
  }

  /** A cookie is accepted for a session only within eleven minutes of the step that issued it for the session's binding. */
  lemma CookiesExpire(env: Env, ms: seq<Machine>, es: seq<Event>, j: nat, s: nat, cookie: nat)
    requires Run(env, ms, es) && j < |ms| && CheckBoundCookie(ms[j].t, s, Some(cookie), ms[j].now).Good?
    ensures exists i, b :: 0 <= i < j && b in ms[j].t.bindings && ms[j].t.bindings[b].session == s
                        && IssuesCookie(es[i], b, cookie) && ms[j].now < ms[i].now + BOUND_COOKIE_TTL_MS + GRACE_MS
  {
    RunKeepsInv(env, ms, es, j);
    var b := GoodCookieHasABinding(ms[j].t, s, cookie, ms[j].now);
    assert BindingOk(ms[j].t.bindings[b], b, ms[j].h);
    CookieIssuedAtSomeStep(env, ms, es, j, cookie);
  }

  lemma BoundNeedsCookie(t: Tables, s: nat, bound: Option<nat>, now: nat)
    requires Gate(t, s, bound, now).1 && Bound(t, s)
    ensures bound.Some? && CheckBoundCookie(t, s, bound, now).Good?
  {
  }

  /**
   * A request counts as coming from a bound session only if it carries a cookie issued for that
   * session's binding less than eleven minutes ago: the session cookie alone is not enough.
   */
  lemma SessionCookieAloneIsNotEnough(env: Env, ms: seq<Machine>, es: seq<Event>, j: nat)
    requires Run(env, ms, es) && j < |es| && es[j].Arrives? && Bound(ms[j].t, es[j].s)
    requires Gate(ms[j].t, es[j].s, es[j].bound, ms[j].now).1
    ensures es[j].bound.Some?
    ensures exists i, b :: 0 <= i < j && b in ms[j].t.bindings && ms[j].t.bindings[b].session == es[j].s
                        && IssuesCookie(es[i], b, es[j].bound.value)
                        && ms[j].now < ms[i].now + BOUND_COOKIE_TTL_MS + GRACE_MS
  {
    BoundNeedsCookie(ms[j].t, es[j].s, es[j].bound, ms[j].now);
    CookiesExpire(env, ms, es, j, es[j].s, es[j].bound.value);
  }

  /** Of any three cookies accepted for one session at one moment, two are the same. */
  lemma AtMostTwoCookies(env: Env, ms: seq<Machine>, es: seq<Event>, j: nat, s: nat, x: nat, y: nat, z: nat)
    requires Run(env, ms, es) && j < |ms|
    requires CheckBoundCookie(ms[j].t, s, Some(x), ms[j].now).Good?
    requires CheckBoundCookie(ms[j].t, s, Some(y), ms[j].now).Good?
    requires CheckBoundCookie(ms[j].t, s, Some(z), ms[j].now).Good?
    ensures x == y || y == z || x == z
  {
    RunKeepsInv(env, ms, es, j);
    var a := GoodCookieHasABinding(ms[j].t, s, x, ms[j].now);
    var b := GoodCookieHasABinding(ms[j].t, s, y, ms[j].now);
    var c := GoodCookieHasABinding(ms[j].t, s, z, ms[j].now);
    assert a == b == c;
  }

  /** The refresh of `b` at this step renews its cookie. */
  predicate Renews(m: Machine, e: Event, b: nat) {
    e.Refresh? && e.b == b && RefreshBinding(m.t, b, e.proof, e.cookie, e.challenge, m.now).1.Renewed?
  }

  lemma UnrenewedKeepsCookies(m: Machine, env: Env, e: Event, b: nat)
    requires Drawn(m.used, e) && e.Refresh? && e.b == b && !Renews(m, e, b) && b in m.t.bindings
    ensures var t' := Step(m, env, e).t;
            b in t'.bindings && t'.bindings[b].cookie == m.t.bindings[b].cookie
              && t'.bindings[b].previous == m.t.bindings[b].previous
  {
  }

  /** Between renewals a binding keeps both its cookies. */
  lemma {:induction false} CookiesStay(env: Env, ms: seq<Machine>, es: seq<Event>, i: nat, j: nat, b: nat)
    requires Run(env, ms, es) && i <= j < |ms| && b in ms[i].used && b in ms[j].t.bindings
    requires forall k :: i <= k < j ==> !Renews(ms[k], es[k], b)
    ensures b in ms[i].t.bindings
    ensures ms[j].t.bindings[b].cookie == ms[i].t.bindings[b].cookie
              && ms[j].t.bindings[b].previous == ms[i].t.bindings[b].previous
  {
    if i < j {
      UsedGrows(env, ms, es, i, j - 1);
      StepAdvances(env, ms, es, j - 1);
      CookiesStay(env, ms, es, i, j - 1, b);
      if es[j - 1].Refresh? && es[j - 1].b == b {
        assert StepAt(env, ms, es, j - 1);
        UnrenewedKeepsCookies(ms[j - 1], env, es[j - 1], b);
      }
    }
  }

  lemma {:induction false} UsedGrows(env: Env, ms: seq<Machine>, es: seq<Event>, i: nat, j: nat)
    requires Run(env, ms, es) && i <= j < |ms|
    ensures ms[i].used <= ms[j].used
  {
    if i < j {
      UsedGrows(env, ms, es, i, j - 1);
      StepAdvances(env, ms, es, j - 1);
    }
  }

  lemma RenewalRotates(m: Machine, env: Env, e: Event, b: nat)
    requires Drawn(m.used, e) && Renews(m, e, b)
    ensures b in m.t.bindings
    ensures var t' := Step(m, env, e).t; b in t'.bindings && t'.bindings[b].previous == Some(m.t.bindings[b].cookie)
  {
  }

  /** The cookie a refresh replaces stays good until its own deadline, for as long as there is no further renewal. */
  lemma ReplacedCookieStaysGood(env: Env, ms: seq<Machine>, es: seq<Event>, i: nat, j: nat, b: nat)
    requires Run(env, ms, es) && i < j < |ms| && Renews(ms[i], es[i], b) && b in ms[j].t.bindings
    requires forall k :: i < k < j ==> !Renews(ms[k], es[k], b)
    ensures b in ms[i].t.bindings
    ensures var c := ms[i].t.bindings[b].cookie;
            ms[j].now < c.expiresAt + GRACE_MS ==> Accepted(ms[j].t.bindings[b], c.value, ms[j].now)
  {
    assert StepAt(env, ms, es, i);
    RenewalRotates(ms[i], env, es[i], b);
    RunKeepsInv(env, ms, es, i + 1);
    CookiesStay(env, ms, es, i + 1, j, b);
  }

  // ---- Keys, offers and challenges --------------------------------------------------------------------

  /** The key and the session of a binding never change. */
  lemma {:induction false} BindingsAreFixed(env: Env, ms: seq<Machine>, es: seq<Event>, i: nat, j: nat, b: nat)
    requires Run(env, ms, es) && i <= j < |ms| && b in ms[i].t.bindings && b in ms[j].t.bindings
    ensures ms[j].t.bindings[b].key == ms[i].t.bindings[b].key
              && ms[j].t.bindings[b].session == ms[i].t.bindings[b].session
  {
    if i < j {
      RunKeepsInv(env, ms, es, i);
      UsedGrows(env, ms, es, i, j - 1);
      StepAdvances(env, ms, es, j - 1);
      BindingsAreFixed(env, ms, es, i, j - 1, b);
    }
  }

  lemma OneBindingPerSession(env: Env, ms: seq<Machine>, es: seq<Event>, i: nat, a: nat, b: nat)
    requires Run(env, ms, es) && i < |ms| && a in ms[i].t.bindings && b in ms[i].t.bindings
    requires ms[i].t.bindings[a].session == ms[i].t.bindings[b].session
    ensures a == b
  {
    RunKeepsInv(env, ms, es, i);
  }

  /** The step offers session `s` a binding. */
  predicate Offers(m: Machine, env: Env, e: Event, s: nat) {
    && Loads(e, s)
    && var (t, passed) := Gate(m.t, s, e.bound, m.now);
    && passed && Admitted(t, env, s, m.now, e.r) && Offerable(t, s)
  }

  lemma OfferIsRecorded(m: Machine, env: Env, e: Event, s: nat)
    requires Drawn(m.used, e) && Offers(m, env, e, s)
    ensures s in m.t.sessions && m.t.sessions[s].offeredAt.None? && s in Step(m, env, e).h.offered
  {
    var m1 := m.(t := Gate(m.t, s, e.bound, m.now).0);
    assert Handle(m, env, e) == DoSession(m1, s, e.r.x);
  }

  lemma {:induction false} HistoryGrows(env: Env, ms: seq<Machine>, es: seq<Event>, i: nat, j: nat)
    requires Run(env, ms, es) && i <= j < |ms|
    ensures ms[i].h.offered <= ms[j].h.offered && ms[i].h.answered <= ms[j].h.answered
  {
    if i < j {
      HistoryGrows(env, ms, es, i, j - 1);
      StepAdvances(env, ms, es, j - 1);
    }
  }

  /** A session is offered a binding at most once. */
  lemma OfferedOnce(env: Env, ms: seq<Machine>, es: seq<Event>, i: nat, j: nat, s: nat)
    requires Run(env, ms, es) && i < j < |es| && Offers(ms[i], env, es[i], s)
    ensures !Offers(ms[j], env, es[j], s)
  {
    assert StepAt(env, ms, es, i) && StepAt(env, ms, es, j);
    OfferIsRecorded(ms[i], env, es[i], s);
    HistoryGrows(env, ms, es, i + 1, j);
    RunKeepsInv(env, ms, es, j);
    if s in ms[j].t.sessions {
      assert OfferOk(ms[j].t.sessions[s], s, ms[j].h);
    }
    if Offers(ms[j], env, es[j], s) {
      OfferIsRecorded(ms[j], env, es[j], s);
    }
  }

  /** In this step a proof answering the device challenge `c` registers a binding or renews its cookie. */
  predicate AnswersDevice(m: Machine, env: Env, e: Event, c: nat) {
    || (e.Arrives? && e.r.SessionRequest? && e.r.x.Bind? && e.r.x.proof.jti == c
        && var (t, passed) := Gate(m.t, e.s, e.bound, m.now);
           passed && Admitted(t, env, e.s, m.now, e.r) && Registrable(t, e.s, e.r.x.proof))
    || (e.Refresh? && e.proof.Some? && e.proof.value.jti == c && Renews(m, e, e.b))
  }

  lemma AnswerIsRecorded(m: Machine, env: Env, e: Event, c: nat)
    requires Inv(m) && Drawn(m.used, e) && AnswersDevice(m, env, e, c)
    ensures c !in m.h.answered && c in Step(m, env, e).h.answered
  {
    if e.Arrives? {
      var m1 := m.(t := Gate(m.t, e.s, e.bound, m.now).0);
      assert Handle(m, env, e) == DoSession(m1, e.s, e.r.x);
      assert OfferOk(m.t.sessions[e.s], e.s, m.h);
    } else {
      assert BindingOk(m.t.bindings[e.b], e.b, m.h);
    }
  }

  /** A device challenge leads to one registration or renewal at most. */
  lemma DeviceChallengesServeOnce(env: Env, ms: seq<Machine>, es: seq<Event>, i: nat, j: nat, c: nat)
    requires Run(env, ms, es) && i < j < |es| && AnswersDevice(ms[i], env, es[i], c)
    ensures !AnswersDevice(ms[j], env, es[j], c)
  {
    AnsweredStays(env, ms, es, i, j, c);
    assert StepAt(env, ms, es, j);
    RunKeepsInv(env, ms, es, j);
    if AnswersDevice(ms[j], env, es[j], c) {
      AnswerIsRecorded(ms[j], env, es[j], c);
    }
  }

  lemma AnsweredStays(env: Env, ms: seq<Machine>, es: seq<Event>, i: nat, j: nat, c: nat)
    requires Run(env, ms, es) && i < j < |ms| && AnswersDevice(ms[i], env, es[i], c)
    ensures c in ms[j].h.answered
  {
    assert StepAt(env, ms, es, i);
    RunKeepsInv(env, ms, es, i);
    AnswerIsRecorded(ms[i], env, es[i], c);
    HistoryGrows(env, ms, es, i + 1, j);
  }
}
