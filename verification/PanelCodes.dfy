/**
 * Recovery codes: they exist only beside a second factor, each works at most once, and until
 * they are replaced the unused ones only become fewer.
 */
module PanelCodes {
  import opened Common
  import opened Base32
  import opened Totp
  import opened Tables
  import opened Auth
  import opened Passkeys
  import opened Panel
  import opened PanelMoves
  import opened PanelSteps

  /** The codes of `a` that still work. */
  function Unused(t: Tables, a: nat): set<seq<ascii>> {
    set r | r in CodesOf(t, a) && !r.used :: r.code
  }

  lemma RedeemableIsUnused(t: Tables, a: nat, code: seq<ascii>)
    ensures Redeemable(CodesOf(t, a), code)
       <==> |NormalizeRecoveryCode(code)| == 10 && NormalizeRecoveryCode(code) in Unused(t, a)
  {
    var c := NormalizeRecoveryCode(code);
    if c in Unused(t, a) {
      var r :| r in CodesOf(t, a) && !r.used && r.code == c;
      assert r == CodeRow(c, false);
    }
  }

  /** Redeeming a code takes exactly that code away. */
  lemma ConsumingSpendsOneCode(t: Tables, a: nat, code: seq<ascii>)
    requires Redeemable(CodesOf(t, a), code)
    ensures Unused(ConsumeRecoveryCode(t, a, code).0, a) == Unused(t, a) - {NormalizeRecoveryCode(code)}
  {
    var rows, c := CodesOf(t, a), NormalizeRecoveryCode(code);
    var after := Redeemed(rows, code);
    forall x ensures x in Unused(ConsumeRecoveryCode(t, a, code).0, a) <==> x in Unused(t, a) && x != c {
      if x in Unused(t, a) && x != c {
        var r :| r in rows && !r.used && r.code == x;
        var i :| 0 <= i < |rows| && rows[i] == r;
        assert after[i] == r;
      }
      if x in Unused(ConsumeRecoveryCode(t, a, code).0, a) {
        var r :| r in after && !r.used && r.code == x;
        var i :| 0 <= i < |after| && after[i] == r;
        assert rows[i] == r;
      }
    }
  }

  // ---- Codes exist only beside a factor ---------------------------------------------------------------

  predicate Backed(t: Tables) {
    forall a :: a in t.codes ==> a in t.accounts && HasSecondFactor(t, a)
  }

  predicate Inv(m: Machine) {
    Backed(m.t) && m.t.accounts.Keys <= m.used
  }

  /** Removing some of `a`'s passkeys and, with the last factor, its codes. */
  lemma DroppingKeeps(t: Tables, a: nat, gone: set<seq<byte>>)
    requires Backed(t) && forall c :: c in gone && c in t.passkeys ==> t.passkeys[c].account == a
    ensures Backed(DropRecoveryCodesIfUnused(t.(passkeys := t.passkeys - gone), a))
  {
    var t1 := t.(passkeys := t.passkeys - gone);
    var t' := DropRecoveryCodesIfUnused(t1, a);
    forall b | b in t'.codes ensures b in t'.accounts && HasSecondFactor(t', b) {
      assert b in t.accounts && HasSecondFactor(t, b);
      if b != a && HasPasskey(t, b) {
        var k :| k in t.passkeys && t.passkeys[k].account == b;
        assert k in t'.passkeys;
      }
    }
  }

  lemma DeletingKeeps(t: Tables, a: nat)
    requires Backed(t)
    ensures Backed(t.(accounts := t.accounts - {a}, passkeys := t.passkeys - PasskeysOf(t, a), codes := t.codes - {a}))
  {
    var t' := t.(accounts := t.accounts - {a}, passkeys := t.passkeys - PasskeysOf(t, a), codes := t.codes - {a});
    forall b | b in t'.codes ensures b in t'.accounts && HasSecondFactor(t', b) {
      assert b in t.accounts && HasSecondFactor(t, b);
      if HasPasskey(t, b) {
        var k :| k in t.passkeys && t.passkeys[k].account == b;
        assert k in t'.passkeys;
      }
    }
  }

  /** A passkey is saved, or its counter changes: every owner still owns one. */
  lemma KeepingPasskeysKeeps(t: Tables, c: seq<byte>, key: Passkey)
    requires Backed(t) && (c in t.passkeys ==> key.account == t.passkeys[c].account)
    ensures Backed(t.(passkeys := t.passkeys[c := key]))
  {
    var t' := t.(passkeys := t.passkeys[c := key]);
    forall b | b in t'.codes ensures b in t'.accounts && HasSecondFactor(t', b) {
      assert b in t.accounts && HasSecondFactor(t, b);
      if HasPasskey(t, b) {
        var k :| k in t.passkeys && t.passkeys[k].account == b;
        assert k in t'.passkeys && t'.passkeys[k].account == b;
      }
    }
  }

  lemma AccountKeeps(t: Tables, a: nat, acc: Account)
    requires Backed(t) && (a in t.codes ==> (t.accounts[a].enabledAt.Some? ==> acc.enabledAt.Some?))
    ensures Backed(WithAccount(t, a, acc))
  {
    var t' := WithAccount(t, a, acc);
    forall b | b in t'.codes ensures b in t'.accounts && HasSecondFactor(t', b) {
      assert b in t.accounts && HasSecondFactor(t, b);
    }
  }

  lemma UnenrollingKeeps(t: Tables, a: nat, acc: Account)
    requires Backed(t) && a in t.accounts
    ensures Backed(DropRecoveryCodesIfUnused(WithAccount(t, a, acc), a))
  {
    var t' := DropRecoveryCodesIfUnused(WithAccount(t, a, acc), a);
    forall b | b in t'.codes ensures b in t'.accounts && HasSecondFactor(t', b) {
      assert b in t.accounts && HasSecondFactor(t, b);
    }
  }

  lemma SameFactorsKeep(t: Tables, t': Tables)
    requires Backed(t) && t'.accounts == t.accounts && t'.passkeys == t.passkeys && t'.codes == t.codes
    ensures Backed(t')
  {
    forall b | b in t'.codes ensures b in t'.accounts && HasSecondFactor(t', b) {
      assert b in t.accounts && HasSecondFactor(t, b);
    }
  }

  lemma CodesKeep(t: Tables, t': Tables, a: nat)
    requires Backed(t) && t'.accounts == t.accounts && t'.passkeys == t.passkeys && t'.codes.Keys <= t.codes.Keys + {a}
    requires a in t.accounts && HasSecondFactor(t, a)
    ensures Backed(t')
  {
    forall b | b in t'.codes ensures b in t'.accounts && HasSecondFactor(t', b) {
      assert b in t.codes ==> b in t.accounts && HasSecondFactor(t, b);
    }
  }

  lemma AccountMoveKeeps(env: Env, e: Event, m: Machine, mv: Move)
    requires Inv(m) && Allowed(env, e, m, mv) && OnAccount(mv)
    ensures Inv(Apply(env, e, m, mv))
  {
    var m' := Apply(env, e, m, mv);
    Frame(env, e, m, mv);
    if mv.Delete? {
      DeletingKeeps(m.t, mv.a);
    } else if mv.Unenrol? {
      UnenrollingKeeps(m.t, mv.a, m.t.accounts[mv.a].(secret := None, enabledAt := None, lastStep := None));
    } else {
      AccountKeeps(m.t, mv.a, m'.t.accounts[mv.a]);
    }
  }

  lemma MoveKeeps(env: Env, e: Event, m: Machine, mv: Move)
    requires Inv(m) && Allowed(env, e, m, mv)
    ensures Inv(Apply(env, e, m, mv))
  {
    var m' := Apply(env, e, m, mv);
    Frame(env, e, m, mv);
    if OnAccount(mv) {
      AccountMoveKeeps(env, e, m, mv);
    } else if mv.DropKeys? {
      DroppingKeeps(m.t, mv.a, mv.credentials);
    } else if mv.AddKey? {
      KeepingPasskeysKeeps(m.t, mv.credential, mv.key);
    } else if mv.Count? {
      KeepingPasskeysKeeps(m.t, mv.credential, m.t.passkeys[mv.credential].(signCount := mv.count));
    } else if mv.Redeem? || mv.Replace? {
      assert mv.Redeem? ==> mv.a in m.t.codes;
      CodesKeep(m.t, m'.t, mv.a);
    } else {
      SameFactorsKeep(m.t, m'.t);
    }
  }

  lemma {:induction false} MovesKeep(env: Env, e: Event, m: Machine, mvs: seq<Move>, m': Machine)
    requires Inv(m) && Path(env, e, m, mvs, m')
    ensures Inv(m')
    decreases |mvs|
  {
    if mvs != [] {
      MoveKeeps(env, e, m, mvs[0]);
      MovesKeep(env, e, Apply(env, e, m, mvs[0]), mvs[1..], m');
    }
  }

  /** Recovery codes of an account exist only while it has an authenticator app or a passkey. */
  lemma {:induction false} CodesBackAFactor(env: Env, ms: seq<Machine>, es: seq<Event>, i: nat)
    requires Run(env, ms, es) && i < |ms|
    ensures Backed(ms[i].t) && ms[i].t.accounts.Keys <= ms[i].used
  {
    if i > 0 {
      CodesBackAFactor(env, ms, es, i - 1);
      assert StepAt(env, ms, es, i - 1);
      StepIsMoves(env, es[i - 1], ms[i - 1]);
      var mvs :| Path(env, es[i - 1], ms[i - 1], mvs, ms[i]);
      MovesKeep(env, es[i - 1], ms[i - 1], mvs, ms[i]);
    }
  }

  // ---- Each code works at most once -------------------------------------------------------------------

  lemma MoveShrinks(env: Env, e: Event, m: Machine, mv: Move, a: nat)
    requires Allowed(env, e, m, mv) && !ReplacesCodes(m.t, e, a)
    ensures Unused(Apply(env, e, m, mv).t, a) <= Unused(m.t, a)
    ensures !ReplacesCodes(Apply(env, e, m, mv).t, e, a)
  {
    SessionsOfReplacement(env, e, m, mv, a);
    if mv.Redeem? && mv.a == a {
      ConsumingSpendsOneCode(m.t, a, mv.code);
    } else {
      CodesStayOrGo(env, e, m, mv, a);
    }
  }

  lemma CodesStayOrGo(env: Env, e: Event, m: Machine, mv: Move, a: nat)
    requires Allowed(env, e, m, mv) && !ReplacesCodes(m.t, e, a) && !(mv.Redeem? && mv.a == a)
    ensures var t' := Apply(env, e, m, mv).t; CodesOf(t', a) == CodesOf(m.t, a) || CodesOf(t', a) == []
  {
    if !OnCodes(mv) {
      Frame(env, e, m, mv);
    }
  }

  /** No move makes the request one that replaces the codes of `a`. */
  lemma SessionsOfReplacement(env: Env, e: Event, m: Machine, mv: Move, a: nat)
    requires Allowed(env, e, m, mv) && !ReplacesCodes(m.t, e, a)
    ensures !ReplacesCodes(Apply(env, e, m, mv).t, e, a)
  {
    if !OnSession(mv) && !mv.Bind? {
      Frame(env, e, m, mv);
    }
  }

  lemma {:induction false} MovesShrink(env: Env, e: Event, m: Machine, mvs: seq<Move>, m': Machine, a: nat)
    requires Path(env, e, m, mvs, m') && !ReplacesCodes(m.t, e, a)
    ensures Unused(m'.t, a) <= Unused(m.t, a)
    decreases |mvs|
  {
    if mvs != [] {
      MoveShrinks(env, e, m, mvs[0], a);
      MovesShrink(env, e, Apply(env, e, m, mvs[0]), mvs[1..], m', a);
    }
  }

  /** In this step account `a` is given new recovery codes. */
  predicate Replaced(m: Machine, env: Env, e: Event, a: nat) {
    && e.Arrives? && e.r.FactorRequest?
    && var (t, passed) := Gate(m.t, e.s, e.bound, m.now);
    && passed && Admitted(t, env, e.s, m.now, e.r)
    && t.sessions[e.s].account == a
    && var f := e.r.f;
    || (f.FinishApp? && EnrolStep(env, t.accounts[a], f.code, m.now).Some?)
    || (f.NewCodes? && CodeStep(env, t.accounts[a], f.code, m.now).Some?)
    || (f.AddPasskey? && !HasSecondFactor(t, a)
        && RegistrationOutcome(t, env, e.s, a, f.registration, m.now).Ok?)
    || (f.ConfirmedNewCodes? && HasSecondFactor(t, a))
  }

  /** What the account is given is a full set of fresh codes, all unused. */
  lemma ReplacementIsFresh(m: Machine, env: Env, e: Event, a: nat)
    requires Drawn(m.used, e) && Replaced(m, env, e, a)
    ensures CodesOf(Panel.Step(m, env, e).t, a) == FreshRows(e.r.f.random)
  {
    var m1 := m.(t := Gate(m.t, e.s, e.bound, m.now).0);
    assert Handle(m, env, e) == DoFactor(m1, env, e.s, e.r.f);
    GrantGivesFresh(m1, env, e.s, e.r.f, a);
  }

  lemma GrantGivesFresh(m: Machine, env: Env, s: nat, f: FactorStep, a: nat)
    requires s in m.t.sessions && m.t.sessions[s].account == a && a in m.t.accounts && DrawnCodes(f)
    requires || (f.FinishApp? && EnrolStep(env, m.t.accounts[a], f.code, m.now).Some?)
             || (f.NewCodes? && CodeStep(env, m.t.accounts[a], f.code, m.now).Some?)
             || (f.AddPasskey? && !HasSecondFactor(m.t, a)
                 && RegistrationOutcome(m.t, env, s, a, f.registration, m.now).Ok?)
             || (f.ConfirmedNewCodes? && HasSecondFactor(m.t, a))
    ensures CodesOf(DoFactor(m, env, s, f).t, a) == FreshRows(f.random)
  {
    if f.AddPasskey? {
      RegisteredHasFactor(m.t, env, s, a, f.registration, m.now, f.id);
    } else if f.FinishApp? {
    } else if f.NewCodes? {
    }
  }

  /** A request for new codes that is refused, or a passkey that is not the first factor, leaves the codes alone. */
  lemma RefusedKeepsCodes(m: Machine, env: Env, s: nat, f: FactorStep, a: nat)
    requires s in m.t.sessions && m.t.sessions[s].account == a && a in m.t.accounts && DrawnCodes(f)
    requires f.FinishApp? || f.NewCodes? || f.AddPasskey? || f.ConfirmedNewCodes?
    requires f.FinishApp? ==> EnrolStep(env, m.t.accounts[a], f.code, m.now).None?
    requires f.NewCodes? ==> CodeStep(env, m.t.accounts[a], f.code, m.now).None?
    requires f.AddPasskey? ==>
               HasSecondFactor(m.t, a) || RegistrationOutcome(m.t, env, s, a, f.registration, m.now).Err?
    requires f.ConfirmedNewCodes? ==> !HasSecondFactor(m.t, a)
    ensures DoFactor(m, env, s, f).t.codes == m.t.codes
  {
    if f.AddPasskey? {
    } else if f.FinishApp? {
    } else if f.NewCodes? {
    }
  }

  /** Without a replacement, a step only takes codes away. */
  lemma UnreplacedShrinks(m: Machine, env: Env, e: Event, a: nat)
    requires Drawn(m.used, e) && !Replaced(m, env, e, a)
    ensures Unused(Panel.Step(m, env, e).t, a) <= Unused(m.t, a)
  {
    if !ReplacesCodes(m.t, e, a) {
      StepIsMoves(env, e, m);
      var mvs :| Path(env, e, m, mvs, Panel.Step(m, env, e));
      MovesShrink(env, e, m, mvs, Panel.Step(m, env, e), a);
    } else {
      var (t1, passed) := Gate(m.t, e.s, e.bound, m.now);
      var m1 := m.(t := t1);
      if passed && Admitted(t1, env, e.s, m.now, e.r) {
        RefusedKeepsCodes(m1, env, e.s, e.r.f, a);
        assert Handle(m, env, e) == DoFactor(m1, env, e.s, e.r.f);
      } else {
        assert Handle(m, env, e) == m1;
      }
      assert Panel.Step(m, env, e).t.codes == m.t.codes;
    }
  }

  /** Between replacements the unused codes only become fewer. */
  lemma {:induction false} UnusedOnlyShrinks(env: Env, ms: seq<Machine>, es: seq<Event>, i: nat, j: nat, a: nat)
    requires Run(env, ms, es) && i <= j < |ms|
    requires forall k :: i <= k < j ==> !Replaced(ms[k], env, es[k], a)
    ensures Unused(ms[j].t, a) <= Unused(ms[i].t, a)
  {
    if i < j {
      UnusedOnlyShrinks(env, ms, es, i, j - 1, a);
      assert StepAt(env, ms, es, j - 1);
      UnreplacedShrinks(ms[j - 1], env, es[j - 1], a);
    }
  }

  /** In this step the recovery code `c` of account `a` is accepted. */
  predicate CodeAccepts(m: Machine, env: Env, e: Event, a: nat, c: seq<ascii>) {
    && e.Arrives?
    && var (t, passed) := Gate(m.t, e.s, e.bound, m.now);
    && passed && Admitted(t, env, e.s, m.now, e.r)
    && t.sessions[e.s].account == a
    && match e.r
       case LoginRequest(l) =>
         l.LoginCode? && !ReportedVerified(t, e.s) && !IsTotpLocked(t.accounts[a], m.now)
           && RedeemsWith(t, env, a, l.code, m.now, c)
       case ConfirmRequest(f) => f.ByCode? && !IsTotpLocked(t.accounts[a], m.now)
         && RedeemsWith(t, env, a, f.code, m.now, c)
       case FactorRequest(f) =>
         && f.DisableApp? && RedeemsWith(t, env, a, f.code, m.now, c)
         && t.accounts[a].secret.Some? && t.accounts[a].enabledAt.Some? && (env.requireTotp ==> HasPasskey(t, a))
       case SessionRequest(_) => false
       case UserRequest(_) => false
       case SensitiveRequest => false
  }

  predicate RedeemsWith(t: Tables, env: Env, a: nat, code: seq<ascii>, now: nat, c: seq<ascii>)
    requires a in t.accounts
  {
    CodeStep(env, t.accounts[a], code, now).None? && Redeemable(CodesOf(t, a), code) && NormalizeRecoveryCode(code) == c
  }

  lemma LoginSpends(m: Machine, env: Env, s: nat, l: LoginStep, a: nat)
    requires s in m.t.sessions && m.t.sessions[s].account == a && a in m.t.accounts && l.LoginCode?
    requires !ReportedVerified(m.t, s) && !IsTotpLocked(m.t.accounts[a], m.now)
    requires RedeemsWith(m.t, env, a, l.code, m.now, NormalizeRecoveryCode(l.code))
    ensures CodesOf(DoLogin(m, env, s, l).t, a) == CodesOf(ConsumeRecoveryCode(m.t, a, l.code).0, a)
  {
  }

  lemma ConfirmSpends(m: Machine, env: Env, s: nat, c: ConfirmStep, a: nat)
    requires s in m.t.sessions && m.t.sessions[s].account == a && a in m.t.accounts && c.ByCode?
    requires !IsTotpLocked(m.t.accounts[a], m.now)
    requires RedeemsWith(m.t, env, a, c.code, m.now, NormalizeRecoveryCode(c.code))
    ensures CodesOf(DoConfirm(m, env, s, c).t, a) == CodesOf(ConsumeRecoveryCode(m.t, a, c.code).0, a)
  {
  }

  lemma DisableSpends(m: Machine, env: Env, s: nat, f: FactorStep, a: nat)
    requires s in m.t.sessions && m.t.sessions[s].account == a && a in m.t.accounts && f.DisableApp?
    requires m.t.accounts[a].secret.Some? && m.t.accounts[a].enabledAt.Some? && (env.requireTotp ==> HasPasskey(m.t, a))
    requires RedeemsWith(m.t, env, a, f.code, m.now, NormalizeRecoveryCode(f.code))
    ensures var t' := DoFactor(m, env, s, f).t;
            CodesOf(t', a) == CodesOf(ConsumeRecoveryCode(m.t, a, f.code).0, a) || CodesOf(t', a) == []
  {
  }

  /** Accepting a code takes it out of the unused ones. */
  lemma AcceptingSpends(m: Machine, env: Env, e: Event, a: nat, c: seq<ascii>)
    requires Drawn(m.used, e) && CodeAccepts(m, env, e, a, c)
    ensures c in Unused(m.t, a) && c !in Unused(Panel.Step(m, env, e).t, a)
  {
    var m1 := m.(t := Gate(m.t, e.s, e.bound, m.now).0);
    assert Handle(m, env, e) == DoRequest(m1, env, e.s, e.r);
    if e.r.LoginRequest? {
      RedeemableIsUnused(m1.t, a, e.r.l.code);
      ConsumingSpendsOneCode(m1.t, a, e.r.l.code);
      LoginSpends(m1, env, e.s, e.r.l, a);
    } else if e.r.ConfirmRequest? {
      RedeemableIsUnused(m1.t, a, e.r.c.code);
      ConsumingSpendsOneCode(m1.t, a, e.r.c.code);
      ConfirmSpends(m1, env, e.s, e.r.c, a);
    } else {
      RedeemableIsUnused(m1.t, a, e.r.f.code);
      ConsumingSpendsOneCode(m1.t, a, e.r.f.code);
      DisableSpends(m1, env, e.s, e.r.f, a);
    }
  }

  lemma SpentStaysSpent(env: Env, ms: seq<Machine>, es: seq<Event>, i: nat, j: nat, a: nat, c: seq<ascii>)
    requires Run(env, ms, es) && i < j < |ms| && CodeAccepts(ms[i], env, es[i], a, c)
    requires forall k :: i < k < j ==> !Replaced(ms[k], env, es[k], a)
    ensures c !in Unused(ms[j].t, a)
  {
    assert StepAt(env, ms, es, i);
    AcceptingSpends(ms[i], env, es[i], a, c);
    UnusedOnlyShrinks(env, ms, es, i + 1, j, a);
  }

  /** If one code is accepted at two steps of a run, the account was given new codes in between. */
  lemma CodesWorkOnce(env: Env, ms: seq<Machine>, es: seq<Event>, i: nat, j: nat, a: nat, c: seq<ascii>)
    requires Run(env, ms, es) && i < j < |es|
    requires CodeAccepts(ms[i], env, es[i], a, c) && CodeAccepts(ms[j], env, es[j], a, c)
    ensures exists k :: i < k < j && Replaced(ms[k], env, es[k], a)
  {
    assert StepAt(env, ms, es, j);
    AcceptingSpends(ms[j], env, es[j], a, c);
    if forall k :: i < k < j ==> !Replaced(ms[k], env, es[k], a) {
      SpentStaysSpent(env, ms, es, i, j, a, c);
    }
  }
}
