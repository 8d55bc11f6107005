/** The statements of src/services/users.ts, each proved to do what module Users says of the tables. */
module UserService {
  import opened Common
  import opened Tables
  import opened Database
  import opened Auth
  import opened Users
  import AuthService
  import U = Users

  /** COUNT of the other accounts that are active administrators, row by row. */
  method CountActiveAdminsOtherThan(db: Db, a: nat) returns (n: nat)
    ensures n == ActiveAdminsOtherThan(db.View(), a)
  {
    var todo := db.accounts.Keys;
    ghost var seen: set<nat> := {};
    n := 0;
    while todo != {}
      invariant todo <= db.accounts.Keys
      invariant seen == (ActiveAdmins(db.View()) - {a}) - todo
      invariant n == |seen|
      decreases todo
    {
      var x :| x in todo;
      todo := todo - {x};
      if db.accounts[x].role.Admin? && db.accounts[x].disabledAt.None? && x != a {
        assert (ActiveAdmins(db.View()) - {a}) - todo == seen + {x};
        seen := seen + {x};
        n := n + 1;
      } else {
        assert (ActiveAdmins(db.View()) - {a}) - todo == seen;
      }
    }
    assert seen == ActiveAdmins(db.View()) - {a};
  }

  method SetUserRole(db: Db, actor: nat, a: nat, role: Role) returns (error: Option<UserError>)
    requires db.saved.None?
    modifies db
    ensures (db.View(), error) == U.SetUserRole(old(db.View()), actor, a, role)
    ensures db.saved.None?
  {
    db.Begin();
    error := RequireUser(db.View(), actor, a);
    if error.Some? {
      db.Rollback();
      return;
    }
    if db.accounts[a].role.Admin? && !role.Admin? {
      var others := CountActiveAdminsOtherThan(db, a);
      if others == 0 {
        db.Rollback();
        return Some(LastAdmin);
      }
    }
    db.UpdateAccount(a, db.accounts[a].(role := role));
    db.Commit();
  }

  method SetUserDisabled(db: Db, actor: nat, a: nat, disabled: bool, now: nat) returns (error: Option<UserError>)
    requires db.saved.None?
    modifies db
    ensures (db.View(), error) == U.SetUserDisabled(old(db.View()), actor, a, disabled, now)
    ensures db.saved.None?
  {
    db.Begin();
    error := RequireUser(db.View(), actor, a);
    if error.Some? {
      db.Rollback();
      return;
    }
    if disabled && db.accounts[a].role.Admin? {
      var others := CountActiveAdminsOtherThan(db, a);
      if others == 0 {
        db.Rollback();
        return Some(LastAdmin);
      }
    }
    db.UpdateAccount(a, db.accounts[a].(disabledAt := if disabled then Some(now) else None));
    if disabled {
      db.DeleteSessions(set s | s in db.sessions && db.sessions[s].account == a);
    }
    db.Commit();
  }

  method ResetUserPassword(db: Db, actor: nat, a: nat, password: string) returns (error: Option<UserError>)
    requires db.saved.None?
    modifies db
    ensures (db.View(), error) == U.ResetUserPassword(old(db.View()), actor, a, password)
    ensures db.saved.None?
  {
    db.Begin();
    error := RequireUser(db.View(), actor, a);
    if error.Some? {
      db.Rollback();
      return;
    }
    db.UpdateAccount(a, db.accounts[a].(password := password, mustChange := true));
    db.DeleteSessions(set s | s in db.sessions && db.sessions[s].account == a);
    db.Commit();
  }

  method ResetUserTotp(db: Db, actor: nat, a: nat) returns (error: Option<UserError>)
    requires db.saved.None?
    modifies db
    ensures (db.View(), error) == U.ResetUserTotp(old(db.View()), actor, a)
    ensures db.saved.None?
  {
    error := RequireUser(db.View(), actor, a);
    if error.None? {
      AuthService.ResetSecondFactors(db, a);
    }
  }

  /** DELETE FROM admins; everything that belongs to the account goes with it (ON DELETE CASCADE). */
  method DeleteUser(db: Db, actor: nat, a: nat) returns (error: Option<UserError>)
    requires db.saved.None?
    modifies db
    ensures (db.View(), error) == U.DeleteUser(old(db.View()), actor, a)
    ensures db.saved.None?
  {
    db.Begin();
    error := RequireUser(db.View(), actor, a);
    if error.Some? {
      db.Rollback();
      return;
    }
    if db.accounts[a].role.Admin? {
      var others := CountActiveAdminsOtherThan(db, a);
      if others == 0 {
        db.Rollback();
        return Some(LastAdmin);
      }
    }
    db.accounts := db.accounts - {a};
    db.DeleteSessions(set s | s in db.sessions && db.sessions[s].account == a);
    db.passkeys := map c | c in db.passkeys && db.passkeys[c].account != a :: db.passkeys[c];
    db.codes := db.codes - {a};
    db.Commit();
  }
}
