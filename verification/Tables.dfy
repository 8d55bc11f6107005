/**
 * The panel's tables (migrations/001_init.sql to 005_session_security.sql). Ids, challenges,
 * cookies and secrets are drawn from one supply of numbers; a session is named by the number
 * behind its cookie, since only its hash is stored and hashing is taken to be injective.
 */
module Tables {
  import opened Common
  import opened Base32

  datatype Role = Admin | User
  datatype Factor = ByTotp | ByRecovery | ByPasskey
  datatype Purpose = ForRegister | ForLogin | ForConfirm

  datatype Account = Account(
    password: string,
    role: Role,
    disabledAt: Option<nat>,
    mustChange: bool,
    secret: Option<nat>,
    enabledAt: Option<nat>,
    lastStep: Option<int>,
    failed: nat,
    lockedUntil: Option<nat>)

  datatype Ceremony = Ceremony(challenge: nat, purpose: Purpose, expiresAt: nat)

  datatype Session = Session(
    account: nat,
    expiresAt: nat,
    verified: bool,
    attempts: nat,
    publicId: nat,
    factor: Option<Factor>,
    confirmedUntil: Option<nat>,
    ceremony: Option<Ceremony>,
    offerChallenge: Option<nat>,
    offeredAt: Option<nat>)

  /** Stored under its credential id, which is unique. */
  datatype Passkey = Passkey(id: nat, account: nat, publicKey: seq<byte>, algorithm: int, signCount: nat)

  datatype CodeRow = CodeRow(code: seq<ascii>, used: bool)

  datatype Timed = Timed(value: nat, expiresAt: nat)

  datatype Binding = Binding(session: nat, key: nat, cookie: Timed, previous: Option<Timed>, challenge: Option<Timed>)

  datatype Tables = Tables(
    accounts: map<nat, Account>,
    sessions: map<nat, Session>,
    passkeys: map<seq<byte>, Passkey>,
    codes: map<nat, seq<CodeRow>>,
    bindings: map<nat, Binding>)

  function CodesOf(t: Tables, a: nat): seq<CodeRow> {
    if a in t.codes then t.codes[a] else []
  }

  function SessionsOf(t: Tables, a: nat): set<nat> {
    set s | s in t.sessions && t.sessions[s].account == a
  }

  /** DELETE FROM sessions; bindings go with their session (ON DELETE CASCADE). */
  function EndSessions(t: Tables, gone: set<nat>): Tables {
    t.(sessions := t.sessions - gone,
       bindings := map b | b in t.bindings && t.bindings[b].session !in gone :: t.bindings[b])
  }

  function WithAccount(t: Tables, a: nat, acc: Account): Tables {
    t.(accounts := t.accounts[a := acc])
  }

  function WithSession(t: Tables, s: nat, row: Session): Tables {
    t.(sessions := t.sessions[s := row])
  }

  predicate Owns(passkeys: map<seq<byte>, Passkey>, a: nat) {
    exists c :: c in passkeys && passkeys[c].account == a
  }

  predicate HasPasskey(t: Tables, a: nat) {
    Owns(t.passkeys, a)
  }

  /** An authenticator app or a passkey. */
  predicate HasSecondFactor(t: Tables, a: nat) {
    (a in t.accounts && t.accounts[a].enabledAt.Some?) || HasPasskey(t, a)
  }
}
