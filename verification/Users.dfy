/** Managing accounts (src/services/users.ts). */
module Users {
  import opened Common
  import opened Tables
  import opened Auth

  datatype UserError = MissingUser | NotSelf | LastAdmin

  predicate ActiveAdmin(t: Tables, a: nat) {
    a in t.accounts && t.accounts[a].role.Admin? && t.accounts[a].disabledAt.None?
  }

  function ActiveAdmins(t: Tables): set<nat> {
    set a | a in t.accounts && ActiveAdmin(t, a)
  }

  function ActiveAdminsOtherThan(t: Tables, a: nat): nat {
    |ActiveAdmins(t) - {a}|
  }

  function RequireUser(t: Tables, actor: nat, a: nat): Option<UserError> {
    if a !in t.accounts then Some(MissingUser) else if a == actor then Some(NotSelf) else None
  }

  function CreateUser(t: Tables, a: nat, role: Role, password: string): Tables {
    WithAccount(t, a, NewAccount(password, role, true))
  }

  function SetUserRole(t: Tables, actor: nat, a: nat, role: Role): (Tables, Option<UserError>) {
    var error := RequireUser(t, actor, a);
    if error.Some? then (t, error)
    else if t.accounts[a].role.Admin? && !role.Admin? && ActiveAdminsOtherThan(t, a) == 0 then (t, Some(LastAdmin))
    else (WithAccount(t, a, t.accounts[a].(role := role)), None)
  }

  function SetUserDisabled(t: Tables, actor: nat, a: nat, disabled: bool, now: nat): (Tables, Option<UserError>) {
    var error := RequireUser(t, actor, a);
    if error.Some? then (t, error)
    else if disabled && t.accounts[a].role.Admin? && ActiveAdminsOtherThan(t, a) == 0 then (t, Some(LastAdmin))
    else
      var marked := WithAccount(t, a, t.accounts[a].(disabledAt := if disabled then Some(now) else None));
      (if disabled then EndSessions(marked, SessionsOf(t, a)) else marked, None)
  }

  function ResetUserPassword(t: Tables, actor: nat, a: nat, password: string): (Tables, Option<UserError>) {
    var error := RequireUser(t, actor, a);
    if error.Some? then (t, error)
    else (EndSessions(WithAccount(t, a, t.accounts[a].(password := password, mustChange := true)), SessionsOf(t, a)),
          None)
  }

  function ResetUserTotp(t: Tables, actor: nat, a: nat): (Tables, Option<UserError>) {
    var error := RequireUser(t, actor, a);
    if error.Some? then (t, error) else (ResetSecondFactors(t, a), None)
  }

  /** The account's sessions, passkeys and recovery codes go with it (ON DELETE CASCADE). */
  function DeleteUser(t: Tables, actor: nat, a: nat): (Tables, Option<UserError>) {
    var error := RequireUser(t, actor, a);
    if error.Some? then (t, error)
    else if t.accounts[a].role.Admin? && ActiveAdminsOtherThan(t, a) == 0 then (t, Some(LastAdmin))
    else
      var left := EndSessions(WithoutPasskeysOf(t, a), SessionsOf(t, a));
      (left.(accounts := left.accounts - {a}, codes := left.codes - {a}), None)
  }
}
