/** The database connection: the tables as they stand, and transactions over them (src/db.ts). */
module Database {
  import opened Common
  import opened Tables
  import Ledger

  class Db {
    var accounts: map<nat, Account>
    var sessions: map<nat, Session>
    var passkeys: map<seq<byte>, Passkey>
    var codes: map<nat, seq<CodeRow>>
    var bindings: map<nat, Binding>
    var saved: Option<Tables>

    /** A freshly migrated database. */
    constructor ()
      ensures View() == Tables(map[], map[], map[], map[], map[]) && saved.None?
    {
      accounts, sessions, passkeys, codes, bindings := map[], map[], map[], map[], map[];
      saved := None;
    }

    function View(): Tables
      reads this
    {
      Tables(accounts, sessions, passkeys, codes, bindings)
    }

    /** BEGIN IMMEDIATE: one transaction at a time. */
    method Begin()
      requires saved.None?
      modifies this`saved
      ensures saved == Some(View())
    {
      saved := Some(View());
    }

    method Commit()
      requires saved.Some?
      modifies this`saved
      ensures saved.None?
    {
      saved := None;
    }

    /** Everything since `Begin` is undone. */
    method Rollback()
      requires saved.Some?
      modifies this
      ensures View() == old(saved).value && saved.None?
    {
      var t := saved.value;
      accounts, sessions, passkeys, codes, bindings := t.accounts, t.sessions, t.passkeys, t.codes, t.bindings;
      saved := None;
    }

    /** DELETE FROM sessions; the bindings of those sessions go with them (ON DELETE CASCADE). */
    method DeleteSessions(gone: set<nat>)
      modifies this`sessions, this`bindings
      ensures View() == EndSessions(old(View()), gone)
    {
      sessions := sessions - gone;
      bindings := map b | b in bindings && bindings[b].session !in gone :: bindings[b];
    }

    method UpdateAccount(a: nat, account: Account)
      modifies this`accounts
      ensures View() == WithAccount(old(View()), a, account)
    {
      accounts := accounts[a := account];
    }

    method UpdateSession(s: nat, row: Session)
      modifies this`sessions
      ensures View() == WithSession(old(View()), s, row)
    {
      sessions := sessions[s := row];
    }
  }

  /** The tables of the upload ledger. */
  class FilesDb {
    var files: Ledger.Files
    var links: Ledger.Links

    constructor ()
      ensures files == map[] && links == map[]
    {
      files, links := map[], map[];
    }
  }
}
