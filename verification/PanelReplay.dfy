/**
 * One authenticator-app step is accepted at most once: at login, in a confirmation, at enrolment,
 * for new recovery codes or to disable the app, the steps accepted for a secret only ever increase.
 */
module PanelReplay {
  import opened Common
  import opened Base32
  import opened Totp
  import opened Tables
  import opened Auth
  import opened Passkeys
  import opened Panel
  import opened PanelMoves
  import opened PanelSteps

  /** Steps strictly increase, their times are in order, and each is the step of its time or a neighbour. */
  predicate Increasing(steps: seq<AcceptedStep>, now: nat) {
    && (forall i :: 0 < i < |steps| ==> steps[i - 1].step < steps[i].step && steps[i - 1].at <= steps[i].at)
    && (forall i :: 0 <= i < |steps| ==>
          steps[i].at <= now && Totp.Step(steps[i].at) - 1 <= steps[i].step <= Totp.Step(steps[i].at) + 1)
  }

  /** The stored step is the last one accepted for the enrolled secret; a pending secret has none. */
  predicate Remembers(acc: Account, h: History) {
    && (acc.enabledAt.Some? ==>
          && acc.secret.Some? && acc.secret.value in h.steps
          && |StepsOf(h, acc.secret.value)| > 0
          && acc.lastStep == Some(StepsOf(h, acc.secret.value)[|StepsOf(h, acc.secret.value)| - 1].step))
    && (acc.enabledAt.None? && acc.secret.Some? ==> acc.secret.value !in h.steps)
  }

  predicate SecretKnown(acc: Account, used: set<nat>) {
    acc.secret.Some? ==> acc.secret.value in used
  }

  predicate Distinct(accounts: map<nat, Account>) {
    forall a, b :: a in accounts && b in accounts && a != b && accounts[a].secret.Some? ==>
      accounts[a].secret != accounts[b].secret
  }

  predicate Inv(m: Machine) {
    && m.h.steps.Keys <= m.used
    && Distinct(m.t.accounts)
    && (forall x :: x in m.h.steps ==> Increasing(m.h.steps[x], m.now))
    && (forall a :: a in m.t.accounts ==> Remembers(m.t.accounts[a], m.h) && SecretKnown(m.t.accounts[a], m.used))
  }

  /** The code of an enrolled app matches a step newer than the last one accepted, within one of the present. */
  lemma CodeStepIsNew(env: Env, acc: Account, code: seq<ascii>, now: nat)
    requires CodeStep(env, acc, code, now).Some?
    ensures acc.secret.Some? && acc.enabledAt.Some?
    ensures var step := CodeStep(env, acc, code, now).value;
            && Totp.Step(now) - 1 <= step <= Totp.Step(now) + 1
            && (acc.lastStep.Some? ==> step > acc.lastStep.value)
  {
    VerifyTotpExact(Codes(env, acc.secret.value), code, now, acc.lastStep);
  }

  lemma EnrolStepIsNear(env: Env, acc: Account, code: seq<ascii>, now: nat)
    requires EnrolStep(env, acc, code, now).Some?
    ensures acc.secret.Some? && acc.enabledAt.None?
    ensures var step := EnrolStep(env, acc, code, now).value; Totp.Step(now) - 1 <= step <= Totp.Step(now) + 1
  {
    VerifyTotpExact(Codes(env, acc.secret.value), code, now, None);
  }

  // ---- Moves ------------------------------------------------------------------------------------------

  lemma AppendKeeps(steps: seq<AcceptedStep>, now: nat, step: int)
    requires Increasing(steps, now) && Totp.Step(now) - 1 <= step <= Totp.Step(now) + 1
    requires |steps| > 0 ==> steps[|steps| - 1].step < step
    ensures Increasing(steps + [AcceptedStep(now, step)], now)
  {
  }

  /** A step joins the history of the secret of account `a`, and becomes its last. */
  lemma SteppingKeeps(m: Machine, a: nat, acc: Account, step: int)
    requires Inv(m) && a in m.t.accounts && m.t.accounts[a].secret.Some?
    requires acc.secret == m.t.accounts[a].secret && acc.enabledAt.Some? && acc.lastStep == Some(step)
    requires Totp.Step(m.now) - 1 <= step <= Totp.Step(m.now) + 1
    requires m.t.accounts[a].enabledAt.Some? && m.t.accounts[a].lastStep.Some? ==> m.t.accounts[a].lastStep.value < step
    ensures Inv(m.(t := WithAccount(m.t, a, acc), h := Stepped(m.h, m.t.accounts[a].secret, Some(step), m.now)))
  {
    var m' := m.(t := WithAccount(m.t, a, acc), h := Stepped(m.h, m.t.accounts[a].secret, Some(step), m.now));
    assert Remembers(m.t.accounts[a], m.h) && SecretKnown(m.t.accounts[a], m.used);
    AppendKeeps(StepsOf(m.h, acc.secret.value), m.now, step);
    forall b | b in m'.t.accounts ensures Remembers(m'.t.accounts[b], m'.h) && SecretKnown(m'.t.accounts[b], m'.used) {
      assert Remembers(m.t.accounts[b], m.h) && SecretKnown(m.t.accounts[b], m.used);
    }
  }

  lemma AcceptKeeps(env: Env, e: Event, m: Machine, mv: Move)
    requires Inv(m) && Allowed(env, e, m, mv) && (mv.Accept? || mv.Enable?)
    ensures Inv(Apply(env, e, m, mv))
  {
    var acc := m.t.accounts[mv.a];
    if mv.Accept? {
      CodeStepIsNew(env, acc, mv.code, m.now);
      var step := CodeStep(env, acc, mv.code, m.now);
      SteppingKeeps(m, mv.a, acc.(lastStep := step), step.value);
    } else {
      EnrolStepIsNear(env, acc, mv.code, m.now);
      var step := EnrolStep(env, acc, mv.code, m.now);
      SteppingKeeps(m, mv.a, acc.(enabledAt := Some(m.now), lastStep := step), step.value);
    }
  }

  /** Any other change of one account: its secret and step stay, go, or give way to a fresh pending secret. */
  lemma EditKeeps(m: Machine, a: nat, acc: Account, m': Machine)
    requires Inv(m) && m'.t.accounts == m.t.accounts[a := acc] && m'.h.steps == m.h.steps && m'.now == m.now
               && m.used <= m'.used
    requires || (acc.secret.None? && acc.enabledAt.None?)
             || (acc.secret.Some? && acc.enabledAt.None? && acc.secret.value in m'.used && acc.secret.value !in m.used)
             || (a in m.t.accounts && acc.secret == m.t.accounts[a].secret && acc.enabledAt == m.t.accounts[a].enabledAt
                 && acc.lastStep == m.t.accounts[a].lastStep)
    ensures Inv(m')
  {
    forall b | b in m'.t.accounts ensures Remembers(m'.t.accounts[b], m'.h) && SecretKnown(m'.t.accounts[b], m'.used) {
      if b in m.t.accounts {
        assert Remembers(m.t.accounts[b], m.h) && SecretKnown(m.t.accounts[b], m.used);
      }
    }
    forall x, y | x in m'.t.accounts && y in m'.t.accounts && x != y && m'.t.accounts[x].secret.Some?
      ensures m'.t.accounts[x].secret != m'.t.accounts[y].secret
    {
      assert x in m.t.accounts ==> SecretKnown(m.t.accounts[x], m.used);
      assert y in m.t.accounts ==> SecretKnown(m.t.accounts[y], m.used);
    }
  }

  lemma AccountMoveKeeps(env: Env, e: Event, m: Machine, mv: Move)
    requires Inv(m) && Allowed(env, e, m, mv) && OnAccount(mv)
    ensures Inv(Apply(env, e, m, mv))
  {
    var m' := Apply(env, e, m, mv);
    Frame(env, e, m, mv);
    HistoryFrame(env, e, m, mv);
    if mv.Accept? || mv.Enable? {
      AcceptKeeps(env, e, m, mv);
    } else if mv.Delete? {
      forall b | b in m'.t.accounts ensures Remembers(m'.t.accounts[b], m'.h) && SecretKnown(m'.t.accounts[b], m'.used) {
        assert Remembers(m.t.accounts[b], m.h) && SecretKnown(m.t.accounts[b], m.used);
      }
    } else {
      EditKeeps(m, mv.a, m'.t.accounts[mv.a], m');
    }
  }

  lemma LaterKeeps(m: Machine, m': Machine)
    requires Inv(m) && m'.t.accounts == m.t.accounts && m'.h.steps == m.h.steps && m.now <= m'.now && m.used <= m'.used
    ensures Inv(m')
  {
    forall x | x in m'.h.steps ensures Increasing(m'.h.steps[x], m'.now) {
      assert Increasing(m.h.steps[x], m.now);
    }
    forall b | b in m'.t.accounts ensures Remembers(m'.t.accounts[b], m'.h) && SecretKnown(m'.t.accounts[b], m'.used) {
      assert Remembers(m.t.accounts[b], m.h) && SecretKnown(m.t.accounts[b], m.used);
    }
  }

  lemma MoveKeeps(env: Env, e: Event, m: Machine, mv: Move)
    requires Inv(m) && Allowed(env, e, m, mv)
    ensures Inv(Apply(env, e, m, mv))
  {
    if OnAccount(mv) {
      AccountMoveKeeps(env, e, m, mv);
    } else {
      Frame(env, e, m, mv);
      HistoryFrame(env, e, m, mv);
      LaterKeeps(m, Apply(env, e, m, mv));
    }
  }

  lemma {:induction false} MovesKeep(env: Env, e: Event, m: Machine, mvs: seq<Move>, m': Machine)
    requires Inv(m) && Path(env, e, m, mvs, m')
    ensures Inv(m')
    decreases |mvs|
  {
    if mvs != [] {
      MoveKeeps(env, e, m, mvs[0]);
      MovesKeep(env, e, Apply(env, e, m, mvs[0]), mvs[1..], m');
    }
  }

  lemma {:induction false} RunKeepsInv(env: Env, ms: seq<Machine>, es: seq<Event>, i: nat)
    requires Run(env, ms, es) && i < |ms|
    ensures Inv(ms[i])
  {
    if i > 0 {
      RunKeepsInv(env, ms, es, i - 1);
      assert StepAt(env, ms, es, i - 1);
      StepIsMoves(env, es[i - 1], ms[i - 1]);
      var mvs :| Path(env, es[i - 1], ms[i - 1], mvs, ms[i]);
      MovesKeep(env, es[i - 1], ms[i - 1], mvs, ms[i]);
    }
  }

  // ---- Acceptances ------------------------------------------------------------------------------------

  /** In this step a code from the app holding `secret` is accepted, as the code of `step`. */
  predicate AppAccepts(m: Machine, env: Env, e: Event, secret: nat, step: int) {
    && e.Arrives?
    && var (t, passed) := Gate(m.t, e.s, e.bound, m.now);
    && passed && Admitted(t, env, e.s, m.now, e.r)
    && var acc := t.accounts[t.sessions[e.s].account];
    && acc.secret == Some(secret)
    && match e.r
       case LoginRequest(l) =>
         l.LoginCode? && !ReportedVerified(t, e.s) && !IsTotpLocked(acc, m.now)
           && CodeStep(env, acc, l.code, m.now) == Some(step)
       case ConfirmRequest(c) => c.ByCode? && !IsTotpLocked(acc, m.now) && CodeStep(env, acc, c.code, m.now) == Some(step)
       case FactorRequest(f) =>
         || (f.NewCodes? && CodeStep(env, acc, f.code, m.now) == Some(step))
         || (f.FinishApp? && EnrolStep(env, acc, f.code, m.now) == Some(step))
         || (f.DisableApp? && CodeStep(env, acc, f.code, m.now) == Some(step)
             && (env.requireTotp ==> HasPasskey(t, t.sessions[e.s].account)))
       case SessionRequest(_) => false
       case UserRequest(_) => false
       case SensitiveRequest => false
  }

  lemma LoginRecords(m: Machine, env: Env, s: nat, l: LoginStep)
    requires s in m.t.sessions && m.t.sessions[s].account in m.t.accounts && l.LoginCode?
    requires var acc := m.t.accounts[m.t.sessions[s].account];
             !ReportedVerified(m.t, s) && !IsTotpLocked(acc, m.now) && CodeStep(env, acc, l.code, m.now).Some?
    ensures var acc := m.t.accounts[m.t.sessions[s].account];
            DoLogin(m, env, s, l).h.steps == Stepped(m.h, acc.secret, CodeStep(env, acc, l.code, m.now), m.now).steps
  {
  }

  lemma ConfirmRecords(m: Machine, env: Env, s: nat, c: ConfirmStep)
    requires s in m.t.sessions && m.t.sessions[s].account in m.t.accounts && c.ByCode?
    requires var acc := m.t.accounts[m.t.sessions[s].account];
             !IsTotpLocked(acc, m.now) && CodeStep(env, acc, c.code, m.now).Some?
    ensures var acc := m.t.accounts[m.t.sessions[s].account];
            DoConfirm(m, env, s, c).h.steps == Stepped(m.h, acc.secret, CodeStep(env, acc, c.code, m.now), m.now).steps
  {
  }

  lemma FactorRecords(m: Machine, env: Env, s: nat, f: FactorStep, step: Option<int>)
    requires s in m.t.sessions && m.t.sessions[s].account in m.t.accounts && DrawnCodes(f) && step.Some?
    requires var a := m.t.sessions[s].account;
             || (f.NewCodes? && CodeStep(env, m.t.accounts[a], f.code, m.now) == step)
             || (f.FinishApp? && EnrolStep(env, m.t.accounts[a], f.code, m.now) == step)
             || (f.DisableApp? && CodeStep(env, m.t.accounts[a], f.code, m.now) == step
                 && (env.requireTotp ==> HasPasskey(m.t, a)))
    ensures var a := m.t.sessions[s].account;
            DoFactor(m, env, s, f).h.steps == Stepped(m.h, m.t.accounts[a].secret, step, m.now).steps
  {
    if f.NewCodes? {
    } else if f.FinishApp? {
    }
  }

  lemma AcceptanceIsRecorded(m: Machine, env: Env, e: Event, secret: nat, step: int)
    requires Drawn(m.used, e) && AppAccepts(m, env, e, secret, step)
    ensures StepsOf(Panel.Step(m, env, e).h, secret) == StepsOf(m.h, secret) + [AcceptedStep(m.now, step)]
  {
    var m1 := m.(t := Gate(m.t, e.s, e.bound, m.now).0);
    assert Handle(m, env, e) == DoRequest(m1, env, e.s, e.r);
    if e.r.LoginRequest? {
      LoginRecords(m1, env, e.s, e.r.l);
    } else if e.r.ConfirmRequest? {
      ConfirmRecords(m1, env, e.s, e.r.c);
    } else {
      FactorRecords(m1, env, e.s, e.r.f, Some(step));
    }
  }

  /** `extra` more acceptances, none before `from`. */
  predicate Continues(before: seq<AcceptedStep>, after: seq<AcceptedStep>, from: nat, extra: nat) {
    && before <= after && |after| >= |before| + extra
    && forall q :: |before| <= q < |after| ==> after[q].at >= from
  }

  lemma MoveRecordsNow(env: Env, e: Event, m: Machine, mv: Move, secret: nat)
    requires Allowed(env, e, m, mv)
    ensures var m' := Apply(env, e, m, mv); Continues(StepsOf(m.h, secret), StepsOf(m'.h, secret), m.now, 0)
  {
    HistoryFrame(env, e, m, mv);
  }

  lemma {:induction false} MovesRecordNow(env: Env, e: Event, m: Machine, mvs: seq<Move>, m': Machine, secret: nat)
    requires Path(env, e, m, mvs, m')
    ensures m.now <= m'.now
    ensures Continues(StepsOf(m.h, secret), StepsOf(m'.h, secret), m.now, 0)
    decreases |mvs|
  {
    if mvs != [] {
      Frame(env, e, m, mvs[0]);
      MoveRecordsNow(env, e, m, mvs[0], secret);
      MovesRecordNow(env, e, Apply(env, e, m, mvs[0]), mvs[1..], m', secret);
    }
  }

  lemma StepRecordsNow(m: Machine, env: Env, e: Event, secret: nat)
    requires Drawn(m.used, e)
    ensures m.now <= Panel.Step(m, env, e).now
    ensures Continues(StepsOf(m.h, secret), StepsOf(Panel.Step(m, env, e).h, secret), m.now, 0)
  {
    StepIsMoves(env, e, m);
    var mvs :| Path(env, e, m, mvs, Panel.Step(m, env, e));
    MovesRecordNow(env, e, m, mvs, Panel.Step(m, env, e), secret);
  }

  lemma {:induction false} RunExtends(env: Env, ms: seq<Machine>, es: seq<Event>, i: nat, j: nat, secret: nat)
    requires Run(env, ms, es) && i <= j < |ms|
    ensures StepsOf(ms[i].h, secret) <= StepsOf(ms[j].h, secret)
  {
    if i < j {
      RunExtends(env, ms, es, i, j - 1, secret);
      assert StepAt(env, ms, es, j - 1);
      StepRecordsNow(ms[j - 1], env, es[j - 1], secret);
    }
  }

  lemma {:induction false} Ordered(steps: seq<AcceptedStep>, now: nat, p: nat, q: nat)
    requires Increasing(steps, now) && p <= q < |steps|
    ensures steps[q].step - steps[p].step >= q - p && steps[p].at <= steps[q].at
  {
    if p < q {
      Ordered(steps, now, p, q - 1);
    }
  }

  /** An acceptance keeps its place in the history for good. */
  lemma KeepsItsPlace(env: Env, ms: seq<Machine>, es: seq<Event>, i: nat, j: nat, secret: nat, x: int)
    requires Run(env, ms, es) && i < j < |ms| && AppAccepts(ms[i], env, es[i], secret, x)
    ensures var p := |StepsOf(ms[i].h, secret)|; p < |StepsOf(ms[j].h, secret)| && StepsOf(ms[j].h, secret)[p].step == x
  {
    assert StepAt(env, ms, es, i);
    AcceptanceIsRecorded(ms[i], env, es[i], secret, x);
    RunExtends(env, ms, es, i + 1, j, secret);
    PrefixKeeps(StepsOf(ms[i].h, secret), AcceptedStep(ms[i].now, x), StepsOf(ms[j].h, secret));
  }

  lemma PrefixKeeps(before: seq<AcceptedStep>, added: AcceptedStep, after: seq<AcceptedStep>)
    requires before + [added] <= after
    ensures |before| < |after| && after[|before|] == added
  {
    assert (before + [added])[|before|] == added;
  }

  /** Two acceptances of one secret, however far apart and of whatever kind, are of increasing steps. */
  lemma NoStepIsAcceptedTwice(env: Env, ms: seq<Machine>, es: seq<Event>, i: nat, j: nat, secret: nat, x: int, y: int)
    requires Run(env, ms, es) && i < j < |es|
    requires AppAccepts(ms[i], env, es[i], secret, x) && AppAccepts(ms[j], env, es[j], secret, y)
    ensures x < y
  {
    KeepsItsPlace(env, ms, es, i, j, secret, x);
    KeepsItsPlace(env, ms, es, i, j + 1, secret, x);
    KeepsItsPlace(env, ms, es, j, j + 1, secret, y);
    RunKeepsInv(env, ms, es, j + 1);
    Ordered(StepsOf(ms[j + 1].h, secret), ms[j + 1].now, |StepsOf(ms[i].h, secret)|, |StepsOf(ms[j].h, secret)|);
  }

  // ---- How many, over a stretch of a run --------------------------------------------------------------

  ghost predicate AcceptsSome(m: Machine, env: Env, e: Event, secret: nat) {
    exists step :: AppAccepts(m, env, e, secret, step)
  }

  ghost function Acceptances(env: Env, ms: seq<Machine>, es: seq<Event>, i: nat, j: nat, secret: nat): nat
    requires i <= j <= |es| && |ms| == |es| + 1
    decreases j
  {
    if i == j then 0
    else Acceptances(env, ms, es, i, j - 1, secret)
         + (if AcceptsSome(ms[j - 1], env, es[j - 1], secret) then 1 else 0)
  }

  lemma SomeIsRecorded(m: Machine, env: Env, e: Event, secret: nat)
    requires Drawn(m.used, e) && AcceptsSome(m, env, e, secret)
    ensures |StepsOf(Panel.Step(m, env, e).h, secret)| == |StepsOf(m.h, secret)| + 1
  {
    var step :| AppAccepts(m, env, e, secret, step);
    AcceptanceIsRecorded(m, env, e, secret, step);
  }

  lemma {:induction false} StretchContinues(env: Env, ms: seq<Machine>, es: seq<Event>, i: nat, j: nat, secret: nat)
    requires Run(env, ms, es) && i <= j <= |es|
    ensures ms[i].now <= ms[j].now
    ensures Continues(StepsOf(ms[i].h, secret), StepsOf(ms[j].h, secret), ms[i].now,
                      Acceptances(env, ms, es, i, j, secret))
    decreases j
  {
    if i < j {
      StretchContinues(env, ms, es, i, j - 1, secret);
      assert StepAt(env, ms, es, j - 1);
      StepRecordsNow(ms[j - 1], env, es[j - 1], secret);
      if AcceptsSome(ms[j - 1], env, es[j - 1], secret) {
        SomeIsRecorded(ms[j - 1], env, es[j - 1], secret);
      }
    }
  }

  lemma StepGrows(x: nat, y: nat)
    requires x <= y
    ensures Totp.Step(x) <= Totp.Step(y)
  {
  }

  /** Between two moments of a run a secret has at most as many acceptances as steps begun, and three. */
  lemma AcceptancesAreFew(env: Env, ms: seq<Machine>, es: seq<Event>, i: nat, j: nat, secret: nat)
    requires Run(env, ms, es) && i <= j <= |es|
    ensures ms[i].now <= ms[j].now
    ensures Acceptances(env, ms, es, i, j, secret) <= Totp.Step(ms[j].now) - Totp.Step(ms[i].now) + 3
  {
    StretchContinues(env, ms, es, i, j, secret);
    StepGrows(ms[i].now, ms[j].now);
    var steps, p := StepsOf(ms[j].h, secret), |StepsOf(ms[i].h, secret)|;
    if |steps| > p {
      RunKeepsInv(env, ms, es, j);
      Ordered(steps, ms[j].now, p, |steps| - 1);
      StepGrows(ms[i].now, steps[p].at);
      StepGrows(steps[|steps| - 1].at, ms[j].now);
    }
  }
}
