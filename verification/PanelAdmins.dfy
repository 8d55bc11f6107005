/** An installation never loses its last active administrator, and nobody manages their own account. */
module PanelAdmins {
  import opened Common
  import opened Tables
  import opened Auth
  import opened Users
  import opened Panel
  import opened PanelMoves
  import opened PanelSteps

  predicate Administered(t: Tables) {
    ActiveAdmins(t) != {}
  }

  /** Someone other than `a` is still an active administrator. */
  lemma AnotherStays(t: Tables, a: nat, t': Tables)
    requires ActiveAdmins(t) - {a} != {}
    requires forall x :: x != a && x in t.accounts ==> x in t'.accounts && t'.accounts[x] == t.accounts[x]
    ensures Administered(t')
  {
    var x :| x in ActiveAdmins(t) - {a};
    assert x in ActiveAdmins(t');
  }

  lemma EditKeeps(t: Tables, a: nat, acc: Account)
    requires Administered(t) && a in t.accounts && StillAdministered(t, a, acc.role.Admin? && acc.disabledAt.None?)
    ensures Administered(WithAccount(t, a, acc))
  {
    if acc.role.Admin? && acc.disabledAt.None? {
      assert a in ActiveAdmins(WithAccount(t, a, acc));
    } else {
      assert ActiveAdmin(t, a) || a !in ActiveAdmins(t);
      AnotherStays(t, a, WithAccount(t, a, acc));
    }
  }

  lemma DeleteKeeps(t: Tables, a: nat, t': Tables)
    requires Administered(t) && a in t.accounts && StillAdministered(t, a, false) && t'.accounts == t.accounts - {a}
    ensures Administered(t')
  {
    assert ActiveAdmin(t, a) || a !in ActiveAdmins(t);
    AnotherStays(t, a, t');
  }

  /** Columns other than the role and the disabled date do not matter here. */
  lemma SameActivityKeeps(t: Tables, t': Tables)
    requires Administered(t)
    requires forall x :: x in t.accounts ==>
      x in t'.accounts && t'.accounts[x].role == t.accounts[x].role
        && t'.accounts[x].disabledAt == t.accounts[x].disabledAt
    ensures Administered(t')
  {
    var x :| x in ActiveAdmins(t);
    assert x in ActiveAdmins(t');
  }

  lemma ActivityOf(env: Env, e: Event, m: Machine, mv: Move, x: nat)
    requires Allowed(env, e, m, mv) && m.t.accounts.Keys <= m.used && x in m.t.accounts
    requires OnAccount(mv) && !mv.Edit? && !mv.Delete?
    ensures var t' := Apply(env, e, m, mv).t;
            x in t'.accounts && t'.accounts[x].role == m.t.accounts[x].role
              && t'.accounts[x].disabledAt == m.t.accounts[x].disabledAt
  {
    OneAccount(env, e, m, mv);
    if !mv.Create? {
      ActivityOfAccount(env, e, m, mv);
    }
  }

  lemma ActivityStays(env: Env, e: Event, m: Machine, mv: Move)
    requires Allowed(env, e, m, mv) && m.t.accounts.Keys <= m.used && !mv.Edit? && !mv.Delete?
    ensures var t' := Apply(env, e, m, mv).t;
            forall x :: x in m.t.accounts ==>
              x in t'.accounts && t'.accounts[x].role == m.t.accounts[x].role
                && t'.accounts[x].disabledAt == m.t.accounts[x].disabledAt
  {
    if !OnAccount(mv) {
      Frame(env, e, m, mv);
    } else {
      var t' := Apply(env, e, m, mv).t;
      forall x | x in m.t.accounts
        ensures x in t'.accounts && t'.accounts[x].role == m.t.accounts[x].role
                  && t'.accounts[x].disabledAt == m.t.accounts[x].disabledAt
      {
        ActivityOf(env, e, m, mv, x);
      }
    }
  }

  lemma MoveKeeps(env: Env, e: Event, m: Machine, mv: Move)
    requires Allowed(env, e, m, mv) && m.t.accounts.Keys <= m.used && Administered(m.t)
    ensures Administered(Apply(env, e, m, mv).t)
  {
    var m' := Apply(env, e, m, mv);
    if mv.Edit? {
      EditKeeps(m.t, mv.a, mv.account);
    } else if mv.Delete? {
      DeleteKeeps(m.t, mv.a, m'.t);
    } else {
      ActivityStays(env, e, m, mv);
      SameActivityKeeps(m.t, m'.t);
    }
  }

  lemma KeysKeep(env: Env, e: Event, m: Machine, mv: Move)
    requires Allowed(env, e, m, mv) && m.t.accounts.Keys <= m.used
    ensures Apply(env, e, m, mv).t.accounts.Keys <= Apply(env, e, m, mv).used
  {
    Frame(env, e, m, mv);
  }

  lemma {:induction false} MovesKeep(env: Env, e: Event, m: Machine, mvs: seq<Move>, m': Machine)
    requires m.t.accounts.Keys <= m.used && Path(env, e, m, mvs, m')
    ensures m'.t.accounts.Keys <= m'.used && (Administered(m.t) ==> Administered(m'.t))
    decreases |mvs|
  {
    if mvs != [] {
      if Administered(m.t) {
        MoveKeeps(env, e, m, mvs[0]);
      }
      KeysKeep(env, e, m, mvs[0]);
      MovesKeep(env, e, Apply(env, e, m, mvs[0]), mvs[1..], m');
    }
  }

  lemma {:induction false} KnownAccounts(env: Env, ms: seq<Machine>, es: seq<Event>, i: nat)
    requires Run(env, ms, es) && i < |ms|
    ensures ms[i].t.accounts.Keys <= ms[i].used
  {
    if i > 0 {
      KnownAccounts(env, ms, es, i - 1);
      StepKeeps(env, ms, es, i - 1);
    }
  }

  lemma StepKeeps(env: Env, ms: seq<Machine>, es: seq<Event>, i: nat)
    requires Run(env, ms, es) && i < |es| && ms[i].t.accounts.Keys <= ms[i].used
    ensures ms[i + 1].t.accounts.Keys <= ms[i + 1].used && (Administered(ms[i].t) ==> Administered(ms[i + 1].t))
  {
    assert StepAt(env, ms, es, i);
    StepIsMoves(env, es[i], ms[i]);
    var mvs :| Path(env, es[i], ms[i], mvs, ms[i + 1]);
    MovesKeep(env, es[i], ms[i], mvs, ms[i + 1]);
  }

  /** Once there is an active administrator there always is, whoever changes which accounts. */
  lemma {:induction false} AnAdministratorRemains(env: Env, ms: seq<Machine>, es: seq<Event>, i: nat, j: nat)
    requires Run(env, ms, es) && i <= j < |ms| && ActiveAdmins(ms[i].t) != {}
    ensures ActiveAdmins(ms[j].t) != {}
  {
    if i < j {
      AnAdministratorRemains(env, ms, es, i, j - 1);
      KnownAccounts(env, ms, es, j - 1);
      StepKeeps(env, ms, es, j - 1);
    }
  }

  /** The account's row, factors, codes and sessions are the same. */
  predicate Untouched(t: Tables, t': Tables, a: nat) {
    && a in t.accounts && a in t'.accounts && t'.accounts[a] == t.accounts[a]
    && CodesOf(t', a) == CodesOf(t, a)
    && (forall c :: c in t.passkeys && t.passkeys[c].account == a ==> c in t'.passkeys && t'.passkeys[c] == t.passkeys[c])
    && (forall s :: s in t.sessions && t.sessions[s].account == a ==> s in t'.sessions && t'.sessions[s] == t.sessions[s])
  }

  lemma ResetKeepsOthers(t: Tables, actor: nat, a: nat)
    requires actor in t.accounts && a in t.accounts && actor != a
    ensures Untouched(t, ResetSecondFactors(t, a), actor)
  {
  }

  /** Managing accounts never touches the actor's own. */
  lemma OwnAccountIsUntouched(m: Machine, actor: nat, u: UserStep)
    requires actor in m.t.accounts && (u.AddUser? ==> u.a !in m.t.accounts)
    ensures Untouched(m.t, DoUser(m, actor, u).t, actor)
  {
    if u.ResetFactors? && u.a != actor && u.a in m.t.accounts {
      ResetKeepsOthers(m.t, actor, u.a);
    } else if u.Remove? {
    } else if u.Disable? {
    } else if u.ChangeRole? {
    }
  }
}
