/**
 * Every step of the panel is a short sequence of moves: one write to the tables together
 * with the history entry that goes with it. A property that every move keeps is kept by
 * every step, so each promise about runs is argued move by move.
 */
module PanelMoves {
  import opened Common
  import opened Base32
  import opened Totp
  import opened Tables
  import opened Auth
  import opened Passkeys
  import opened Bindings
  import opened Users
  import opened Panel
  import W = WebAuthn

  datatype Move =
    | Pass(ms: nat)
    | Draw(names: set<nat>)
    | Note(proved: set<nat>, pendingBorn: set<nat>)
    | End(gone: set<nat>)
    | Start(s: nat, row: Session)
    | Confirm(s: nat)
    | Strike(s: nat)
    | Verify(who: set<nat>)
    | Clear(a: nat, until: Option<nat>)
    | Fail(a: nat)
    | Accept(a: nat, code: seq<ascii>)
    | Enrol(a: nat, secret: nat)
    | Enable(a: nat, code: seq<ascii>)
    | Unenrol(a: nat)
    | Redeem(a: nat, code: seq<ascii>)
    | Replace(a: nat, random: seq<seq<byte>>)
    | Ask(s: nat, purpose: Purpose, challenge: nat)
    | Spend(s: nat, purpose: Purpose)
    | Count(credential: seq<byte>, count: nat)
    | AddKey(credential: seq<byte>, key: Passkey)
    | DropKeys(a: nat, credentials: set<seq<byte>>)
    | Edit(a: nat, account: Account)
    | Create(a: nat, account: Account)
    | Delete(a: nat)
    | Offer(s: nat, challenge: nat)
    | Bind(s: nat, proof: Proof, b: nat, cookie: nat)
    | Rechallenge(b: nat, challenge: nat)
    | Renew(b: nat, proof: Proof, cookie: nat, challenge: nat)

  // ---- What a request can bring about -----------------------------------------------------------------

  /** Session `s` is the one this request may start. */
  predicate StartsSession(e: Event, s: nat) {
    || (e.SignIn? && e.born == s)
    || (e.Arrives? && e.r.LoginRequest? && (e.r.l.LoginPasskey? || e.r.l.LoginCode?) && e.r.l.born == s)
  }

  /** A sign-in or a confirmation of session `s`. */
  predicate SignsIn(e: Event, s: nat) {
    || StartsSession(e, s)
    || (e.Arrives? && e.s == s && e.r.ConfirmRequest? && !e.r.c.ConfirmOptions?)
  }

  predicate AsksFor(e: Event, s: nat, purpose: Purpose) {
    && e.Arrives? && e.s == s
    && match purpose
       case ForLogin => e.r.LoginRequest? && e.r.l.LoginOptions?
       case ForConfirm => e.r.ConfirmRequest? && e.r.c.ConfirmOptions?
       case ForRegister => e.r.FactorRequest? && e.r.f.PasskeyOptions?
  }

  predicate AnswersFor(e: Event, s: nat, purpose: Purpose) {
    && e.Arrives? && e.s == s
    && match purpose
       case ForLogin => e.r.LoginRequest? && e.r.l.LoginPasskey?
       case ForConfirm => e.r.ConfirmRequest? && e.r.c.WithPasskey?
       case ForRegister => e.r.FactorRequest? && e.r.f.AddPasskey?
  }

  predicate TriesCode(e: Event) {
    e.Arrives? && ((e.r.LoginRequest? && e.r.l.LoginCode?) || (e.r.ConfirmRequest? && e.r.c.ByCode?))
  }

  /** A request in which a session may prove a second factor. */
  predicate MayProve(e: Event) {
    e.Arrives? && ((e.r.LoginRequest? && (e.r.l.LoginCode? || e.r.l.LoginPasskey?))
                   || (e.r.FactorRequest? && (e.r.f.FinishApp? || e.r.f.AddPasskey?)))
  }

  /** Session `s` has proved a second factor: the one a sign-in starts, or the one that enrols. */
  predicate MayNote(e: Event, s: nat) {
    MayProve(e) && s == if e.r.LoginRequest? then e.r.l.born else e.s
  }

  predicate AddsFactor(e: Event) {
    e.Arrives? && e.r.FactorRequest? && (e.r.f.FinishApp? || e.r.f.AddPasskey?)
  }

  /** What the lookup of a session ends. */
  predicate Stale(t: Tables, s: nat, now: nat)
    requires s in t.sessions
  {
    || t.sessions[s].expiresAt <= now
    || (t.sessions[s].account in t.accounts && t.accounts[t.sessions[s].account].disabledAt.Some?)
  }

  /** Signing out, or a second step of signing in: the pending session is replaced or gives up. */
  predicate EndsItself(r: Request) {
    r.LoginRequest? && !r.l.LoginOptions?
  }

  /** What a request does to the other sessions of its own account. */
  predicate EndsFellow(e: Event, row: Session)
    requires e.Arrives?
  {
    // a wrong code that locks the account ends the sign-ins still pending
    || (TriesCode(e) && !row.verified)
    || (e.r.FactorRequest? && (e.r.f.FinishApp? || e.r.f.AddPasskey? || e.r.f.DisableApp? || e.r.f.DropPasskey?))
    || (e.r.SessionRequest? && (e.r.x.ChangePassword? || e.r.x.RevokeOthers?))
    || (e.r.SessionRequest? && e.r.x.RevokeOne? && row.publicId == e.r.x.publicId)
  }

  /** An administrator's request that ends the sessions of another account. */
  predicate EndsAccount(e: Event, a: nat) {
    && e.Arrives? && e.r.UserRequest? && e.r.u.a == a
    && (e.r.u.NewPassword? || e.r.u.ResetFactors? || e.r.u.Disable? || e.r.u.Remove?)
  }

  /** Why a session may end. */
  predicate MayEnd(t: Tables, e: Event, now: nat, s: nat)
    requires s in t.sessions
  {
    var row := t.sessions[s];
    || (e.Purge? && row.expiresAt <= now)
    || (e.CliResetPassword? && e.a == row.account) || (e.CliDisableTotp? && e.a == row.account)
    || (e.Arrives? && e.s == s && (Stale(t, s, now) || EndsItself(e.r)))
    || EndsAccount(e, row.account)
    || (&& e.Arrives? && e.s in t.sessions && t.sessions[e.s].account == row.account && EndsFellow(e, row)
        && (e.s == s ==> TriesCode(e)))
  }

  predicate MayEndAll(t: Tables, e: Event, now: nat, gone: set<nat>) {
    forall s :: s in gone && s in t.sessions ==> MayEnd(t, e, now, s)
  }

  /** Only adding a factor verifies sessions, and only those of the account it is added to. */
  predicate MayVerify(t: Tables, e: Event, who: set<nat>) {
    AddsFactor(e) && e.s in t.sessions
    && forall s :: s in who && s in t.sessions ==> t.sessions[s].account == t.sessions[e.s].account
  }

  /** A factor is accepted at login, in a confirmation or when it is disabled, or an account's factors are reset. */
  predicate MayClear(e: Event) {
    || e.CliDisableTotp?
    || (e.Arrives? && e.r.LoginRequest? && (e.r.l.LoginCode? || e.r.l.LoginPasskey?))
    || (e.Arrives? && e.r.ConfirmRequest? && e.r.c.ByCode?)
    || (e.Arrives? && e.r.FactorRequest? && e.r.f.DisableApp?)
    || (e.Arrives? && e.r.UserRequest? && e.r.u.ResetFactors?)
  }

  /** A request by a session of `a` that may give the account new recovery codes. */
  predicate ReplacesCodes(t: Tables, e: Event, a: nat) {
    && e.Arrives? && e.r.FactorRequest?
    && (e.r.f.FinishApp? || e.r.f.NewCodes? || e.r.f.AddPasskey? || e.r.f.ConfirmedNewCodes?)
    && e.s in t.sessions && t.sessions[e.s].account == a
  }

  predicate Loads(e: Event, s: nat) {
    e.Arrives? && e.s == s && e.r.SessionRequest? && e.r.x.LoadPage?
  }

  predicate Registers(e: Event, s: nat, proof: Proof, b: nat, cookie: nat) {
    e.Arrives? && e.s == s && e.r == SessionRequest(SessionStep.Bind(proof, b, cookie))
  }

  predicate StillAdministered(t: Tables, a: nat, active: bool) {
    ActiveAdmin(t, a) && !active ==> ActiveAdminsOtherThan(t, a) > 0
  }

  /** A session as it starts. */
  predicate Newborn(row: Session) {
    && row.attempts == 0 && row.confirmedUntil.None? && row.ceremony.None?
    && row.offerChallenge.None? && row.offeredAt.None?
  }

  /** Edited columns are the password, the role and whether the account is disabled. */
  predicate SameFactors(x: Account, y: Account) {
    && x.secret == y.secret && x.enabledAt == y.enabledAt && x.lastStep == y.lastStep
    && x.failed == y.failed && x.lockedUntil == y.lockedUntil
  }

  /** A session starts for an account that is not disabled, and lasts as long as configured. */
  predicate MayStart(env: Env, e: Event, m: Machine, s: nat, row: Session) {
    && StartsSession(e, s) && Newborn(row)
    && row.account in m.t.accounts && m.t.accounts[row.account].disabledAt.None?
    && row.expiresAt == m.now + env.sessionTtlMs
  }

  /** An account is disabled only once its sessions are gone, and never as the last active administrator. */
  predicate MayEdit(t: Tables, a: nat, account: Account) {
    && a in t.accounts && SameFactors(account, t.accounts[a])
    && StillAdministered(t, a, account.role.Admin? && account.disabledAt.None?)
    && (account.disabledAt.Some? && account.disabledAt != t.accounts[a].disabledAt ==> SessionsOf(t, a) == {})
  }

  /** When a step may make this move: the conditions its handler has checked. */
  predicate Allowed(env: Env, e: Event, m: Machine, mv: Move) {
    match mv
    case Pass(ms) => e == Tick(ms)
    case Draw(names) => names == Names(e)
    case Note(proved, pendingBorn) =>
      && (forall s :: s in proved ==> MayNote(e, s))
      && (pendingBorn == {} || (e.SignIn? && pendingBorn == {e.born}))
    case End(gone) => MayEndAll(m.t, e, m.now, gone)
    case Start(s, row) => s !in m.used && MayStart(env, e, m, s, row)
    case Confirm(s) => s in m.t.sessions && SignsIn(e, s)
    case Strike(s) => s in m.t.sessions && m.t.sessions[s].attempts + 1 < MAX_TOTP_ATTEMPTS
    case Verify(who) => MayVerify(m.t, e, who)
    case Clear(a, until) => MayClear(e) && a in m.t.accounts && (until.None? || until == m.t.accounts[a].lockedUntil)
    case Fail(a) => a in m.t.accounts && !IsTotpLocked(m.t.accounts[a], m.now) && TriesCode(e)
    case Accept(a, code) => a in m.t.accounts && CodeStep(env, m.t.accounts[a], code, m.now).Some?
    case Enrol(a, secret) => a in m.t.accounts && m.t.accounts[a].enabledAt.None? && secret !in m.used
    case Enable(a, code) => a in m.t.accounts && EnrolStep(env, m.t.accounts[a], code, m.now).Some?
    case Unenrol(a) => a in m.t.accounts && MayClear(e)
    case Redeem(a, code) => a in m.t.accounts && Redeemable(CodesOf(m.t, a), code)
    case Replace(a, random) => ReplacesCodes(m.t, e, a) && a in m.t.accounts && HasSecondFactor(m.t, a) && Draws(random)
    case Ask(s, purpose, challenge) => s in m.t.sessions && challenge !in m.used && challenge in Names(e)
      && AsksFor(e, s, purpose)
    case Spend(s, purpose) => s in m.t.sessions && AnswersFor(e, s, purpose)
    case Count(credential, count) =>
      && credential in m.t.passkeys
      && ((count == 0 && m.t.passkeys[credential].signCount == 0) || count > m.t.passkeys[credential].signCount)
    case AddKey(credential, key) => credential !in m.t.passkeys && key.account in m.t.accounts && key.id !in m.used
    case DropKeys(a, credentials) => forall c :: c in credentials && c in m.t.passkeys ==> m.t.passkeys[c].account == a
    case Edit(a, account) => MayEdit(m.t, a, account)
    case Create(a, account) => a !in m.used && account == NewAccount(account.password, account.role, account.mustChange)
    case Delete(a) => a in m.t.accounts && StillAdministered(m.t, a, false)
    case Offer(s, challenge) => Offerable(m.t, s) && challenge !in m.used && Loads(e, s)
    case Bind(s, proof, b, cookie) =>
      Registrable(m.t, s, proof) && b !in m.used && cookie !in m.used && b != cookie && Registers(e, s, proof, b, cookie)
    case Rechallenge(b, challenge) => b in m.t.bindings && challenge !in m.used && e.Refresh? && e.b == b
    case Renew(b, proof, cookie, challenge) =>
      && b in m.t.bindings && Answers(m.t.bindings[b], proof, m.now)
      && cookie !in m.used && challenge !in m.used && cookie != challenge
      && e == Refresh(b, Some(proof), cookie, challenge)
  }

  // ---- What a move does -------------------------------------------------------------------------------

  function Uses(m: Machine, names: set<nat>): Machine {
    m.(used := m.used + names)
  }

  function EditSession(m: Machine, s: nat, row: Session): Machine {
    m.(t := WithSession(m.t, s, row))
  }

  function EditAccount(m: Machine, a: nat, acc: Account): Machine {
    m.(t := WithAccount(m.t, a, acc))
  }

  function VerifySessions(t: Tables, who: set<nat>): Tables {
    t.(sessions := map s | s in t.sessions :: if s in who then t.sessions[s].(verified := true) else t.sessions[s])
  }

  /** The account columns after a wrong code. */
  function AfterFailure(acc: Account, now: nat): Account {
    if acc.failed + 1 >= TOTP_ACCOUNT_LOCK_THRESHOLD then acc.(failed := 0,
        lockedUntil := Some(now + TOTP_ACCOUNT_LOCK_MS))
    else acc.(failed := acc.failed + 1)
  }

  function Rechallenged(row: Binding, now: nat, challenge: nat): Binding {
    row.(challenge := Some(Timed(challenge, now + DBSC_CHALLENGE_TTL_MS)))
  }

  function AfterRenewal(row: Binding, now: nat, cookie: nat, challenge: nat): Binding {
    row.(previous := Some(row.cookie), cookie := Timed(cookie, now + BOUND_COOKIE_TTL_MS),
         challenge := Some(Timed(challenge, now + DBSC_CHALLENGE_TTL_MS)))
  }

  function ApplyToAccount(env: Env, e: Event, m: Machine, mv: Move): Machine
    requires Allowed(env, e, m, mv)
    requires mv.Clear? || mv.Fail? || mv.Accept? || mv.Enrol? || mv.Enable? || mv.Unenrol? || mv.Edit?
               || mv.Create? || mv.Delete?
  {
    if mv.Clear? then
      EditAccount(m, mv.a, m.t.accounts[mv.a].(failed := 0, lockedUntil := mv.until)).(h := Reset(m.h, mv.a))
    else if mv.Fail? then EditAccount(m, mv.a, AfterFailure(m.t.accounts[mv.a], m.now)).(h := Wrong(m.h, mv.a, m.now))
    else if mv.Accept? then
      var step := CodeStep(env, m.t.accounts[mv.a], mv.code, m.now);
      EditAccount(m, mv.a, m.t.accounts[mv.a].(lastStep := step))
        .(h := Stepped(m.h, m.t.accounts[mv.a].secret, step, m.now))
    else if mv.Enrol? then
      Uses(EditAccount(m, mv.a, m.t.accounts[mv.a].(secret := Some(mv.secret), lastStep := None)), {mv.secret})
    else if mv.Enable? then
      var step := EnrolStep(env, m.t.accounts[mv.a], mv.code, m.now);
      EditAccount(m, mv.a, m.t.accounts[mv.a].(enabledAt := Some(m.now), lastStep := step))
        .(h := Stepped(m.h, m.t.accounts[mv.a].secret, step, m.now))
    else if mv.Unenrol? then
      var acc := m.t.accounts[mv.a].(secret := None, enabledAt := None, lastStep := None);
      m.(t := DropRecoveryCodesIfUnused(WithAccount(m.t, mv.a, acc), mv.a))
    else if mv.Edit? then EditAccount(m, mv.a, mv.account)
    else if mv.Create? then Uses(EditAccount(m, mv.a, mv.account), {mv.a})
    else
      m.(t := m.t.(accounts := m.t.accounts - {mv.a}, passkeys := m.t.passkeys - PasskeysOf(m.t, mv.a),
                   codes := m.t.codes - {mv.a}))
  }

  function ApplyToSession(env: Env, e: Event, m: Machine, mv: Move): Machine
    requires Allowed(env, e, m, mv)
    requires mv.End? || mv.Start? || mv.Confirm? || mv.Strike? || mv.Verify? || mv.Ask? || mv.Spend? || mv.Offer?
  {
    if mv.End? then m.(t := EndSessions(m.t, mv.gone))
    else if mv.Start? then Uses(EditSession(m, mv.s, mv.row), {mv.s})
    else if mv.Confirm? then m.(t := MarkConfirmed(m.t, env, mv.s, m.now), h := Confirms(m.h, mv.s, m.now))
    else if mv.Strike? then EditSession(m, mv.s, m.t.sessions[mv.s].(attempts := m.t.sessions[mv.s].attempts + 1))
    else if mv.Verify? then m.(t := VerifySessions(m.t, mv.who))
    else if mv.Ask? then
      Uses(m.(t := BeginCeremony(m.t, mv.s, mv.purpose, mv.challenge, m.now),
              h := Issued(m.h, mv.challenge, mv.s, mv.purpose, m.now)),
           {mv.challenge})
    else if mv.Spend? then m.(t := TakeChallenge(m.t, mv.s), h := Attempted(m.h, m.t, mv.s))
    else
      Uses(m.(t := OfferBinding(m.t, mv.s, mv.challenge, m.now).0,
              h := m.h.(offered := m.h.offered + {mv.s},
                        deviceChallenges := m.h.deviceChallenges[mv.challenge := OfferedTo(mv.s)])),
           {mv.challenge})
  }

  function ApplyToBinding(env: Env, e: Event, m: Machine, mv: Move): Machine
    requires Allowed(env, e, m, mv)
    requires mv.Bind? || mv.Rechallenge? || mv.Renew?
  {
    if mv.Bind? then
      Uses(m.(t := RegisterBinding(m.t, mv.s, mv.proof, mv.b, mv.cookie, m.now).0,
              h := m.h.(answered := m.h.answered + {mv.proof.jti},
                        cookies := m.h.cookies[mv.cookie := IssuedCookie(mv.b, m.now)])),
           {mv.b, mv.cookie})
    else if mv.Rechallenge? then
      Uses(m.(t := m.t.(bindings := m.t.bindings[mv.b := Rechallenged(m.t.bindings[mv.b], m.now, mv.challenge)]),
              h := m.h.(deviceChallenges := m.h.deviceChallenges[mv.challenge := IssuedFor(mv.b)])),
           {mv.challenge})
    else
      var renewed := AfterRenewal(m.t.bindings[mv.b], m.now, mv.cookie, mv.challenge);
      Uses(m.(t := m.t.(bindings := m.t.bindings[mv.b := renewed]),
              h := m.h.(answered := m.h.answered + {mv.proof.jti},
                        deviceChallenges := m.h.deviceChallenges[mv.challenge := IssuedFor(mv.b)],
                        cookies := m.h.cookies[mv.cookie := IssuedCookie(mv.b, m.now)])),
           {mv.cookie, mv.challenge})
  }

  predicate OnAccount(mv: Move) {
    mv.Clear? || mv.Fail? || mv.Accept? || mv.Enrol? || mv.Enable? || mv.Unenrol? || mv.Edit? || mv.Create? || mv.Delete?
  }

  predicate OnSession(mv: Move) {
    mv.End? || mv.Start? || mv.Confirm? || mv.Strike? || mv.Verify? || mv.Ask? || mv.Spend? || mv.Offer?
  }

  predicate OnBinding(mv: Move) {
    mv.Bind? || mv.Rechallenge? || mv.Renew?
  }

  function Apply(env: Env, e: Event, m: Machine, mv: Move): Machine
    requires Allowed(env, e, m, mv)
  {
    if OnAccount(mv) then ApplyToAccount(env, e, m, mv)
    else if OnSession(mv) then ApplyToSession(env, e, m, mv)
    else if OnBinding(mv) then ApplyToBinding(env, e, m, mv)
    else if mv.Pass? then m.(now := m.now + mv.ms)
    else if mv.Draw? then Uses(m, mv.names)
    else if mv.Note? then m.(h := m.h.(proved := m.h.proved + mv.proved,
                                       pendingBorn := m.h.pendingBorn + mv.pendingBorn))
    else if mv.Redeem? then m.(t := ConsumeRecoveryCode(m.t, mv.a, mv.code).0)
    else if mv.Replace? then m.(t := ReplaceRecoveryCodes(m.t, mv.a, mv.random))
    else if mv.Count? then
      m.(t := m.t.(passkeys := m.t.passkeys[mv.credential := m.t.passkeys[mv.credential].(signCount := mv.count)]))
    else if mv.AddKey? then Uses(m.(t := m.t.(passkeys := m.t.passkeys[mv.credential := mv.key])), {mv.key.id})
    else m.(t := DropRecoveryCodesIfUnused(m.t.(passkeys := m.t.passkeys - mv.credentials), mv.a))
  }

  predicate OnCodes(mv: Move) {
    mv.Redeem? || mv.Replace? || mv.DropKeys? || mv.Unenrol? || mv.Delete?
  }

  predicate OnPasskeys(mv: Move) {
    mv.Count? || mv.AddKey? || mv.DropKeys? || mv.Delete?
  }

  lemma AccountFrame(env: Env, e: Event, m: Machine, mv: Move)
    requires Allowed(env, e, m, mv) && OnAccount(mv)
    ensures var m' := Apply(env, e, m, mv);
            && m.used <= m'.used && m'.now == m.now && m'.t.sessions == m.t.sessions && m'.t.bindings == m.t.bindings
            && (!OnCodes(mv) ==> m'.t.codes == m.t.codes) && (!OnPasskeys(mv) ==> m'.t.passkeys == m.t.passkeys)
  {
  }

  lemma SessionFrame(env: Env, e: Event, m: Machine, mv: Move)
    requires Allowed(env, e, m, mv) && OnSession(mv)
    ensures var m' := Apply(env, e, m, mv);
            && m.used <= m'.used && m'.now == m.now && m'.t.accounts == m.t.accounts
            && m'.t.codes == m.t.codes && m'.t.passkeys == m.t.passkeys
            && (!mv.End? ==> m'.t.bindings == m.t.bindings)
  {
  }

  lemma OtherFrame(env: Env, e: Event, m: Machine, mv: Move)
    requires Allowed(env, e, m, mv) && !OnAccount(mv) && !OnSession(mv)
    ensures var m' := Apply(env, e, m, mv);
            && m.used <= m'.used && m'.t.accounts == m.t.accounts && (!mv.Pass? ==> m'.now == m.now)
            && (!mv.Bind? ==> m'.t.sessions == m.t.sessions) && (!OnBinding(mv) ==> m'.t.bindings == m.t.bindings)
            && (!OnCodes(mv) ==> m'.t.codes == m.t.codes) && (!OnPasskeys(mv) ==> m'.t.passkeys == m.t.passkeys)
  {
  }

  /** A move on an account changes that account only. */
  lemma OneAccount(env: Env, e: Event, m: Machine, mv: Move)
    requires Allowed(env, e, m, mv) && OnAccount(mv)
    ensures var t' := Apply(env, e, m, mv).t;
            if mv.Delete? then t'.accounts == m.t.accounts - {mv.a}
            else mv.a in t'.accounts && t'.accounts == m.t.accounts[mv.a := t'.accounts[mv.a]]
  {
  }

  /** Only an edit or a new account decides whether an account is disabled, and which role it has. */
  lemma ActivityOfAccount(env: Env, e: Event, m: Machine, mv: Move)
    requires Allowed(env, e, m, mv) && OnAccount(mv) && !mv.Edit? && !mv.Create? && !mv.Delete?
    ensures var t' := Apply(env, e, m, mv).t;
            && mv.a in t'.accounts && mv.a in m.t.accounts
            && t'.accounts[mv.a].disabledAt == m.t.accounts[mv.a].disabledAt && t'.accounts[mv.a].role == m.t.accounts[mv.a].role
  {
  }

  /** The failure count and the lock change only with a wrong code, a reset or a new account. */
  lemma LockOfAccount(env: Env, e: Event, m: Machine, mv: Move)
    requires Allowed(env, e, m, mv) && OnAccount(mv) && !mv.Fail? && !mv.Clear? && !mv.Create? && !mv.Delete?
    ensures var t' := Apply(env, e, m, mv).t;
            && mv.a in t'.accounts && mv.a in m.t.accounts
            && t'.accounts[mv.a].failed == m.t.accounts[mv.a].failed
            && t'.accounts[mv.a].lockedUntil == m.t.accounts[mv.a].lockedUntil
  {
  }

  /** Ending and verifying aside, a move on a session changes that session only. */
  lemma OneSession(env: Env, e: Event, m: Machine, mv: Move)
    requires Allowed(env, e, m, mv) && (OnSession(mv) || mv.Bind?) && !mv.End? && !mv.Verify?
    ensures var t' := Apply(env, e, m, mv).t;
            mv.s in t'.sessions && t'.sessions == m.t.sessions[mv.s := t'.sessions[mv.s]]
    ensures !mv.Start? ==> mv.s in m.t.sessions && Apply(env, e, m, mv).t.sessions[mv.s].account == m.t.sessions[mv.s].account
  {
  }

  /** What each kind of move leaves alone. */
  lemma Frame(env: Env, e: Event, m: Machine, mv: Move)
    requires Allowed(env, e, m, mv)
    ensures var m' := Apply(env, e, m, mv);
            && m.used <= m'.used && (!mv.Pass? ==> m'.now == m.now)
            && (!OnAccount(mv) ==> m'.t.accounts == m.t.accounts)
            && (!OnSession(mv) && !mv.Bind? ==> m'.t.sessions == m.t.sessions)
            && (!mv.End? && !OnBinding(mv) ==> m'.t.bindings == m.t.bindings)
            && (!OnCodes(mv) ==> m'.t.codes == m.t.codes)
            && (!OnPasskeys(mv) ==> m'.t.passkeys == m.t.passkeys)
  {
    if OnAccount(mv) {
      AccountFrame(env, e, m, mv);
    } else if OnSession(mv) {
      SessionFrame(env, e, m, mv);
    } else {
      OtherFrame(env, e, m, mv);
    }
  }

  lemma AccountHistoryFrame(env: Env, e: Event, m: Machine, mv: Move)
    requires Allowed(env, e, m, mv) && OnAccount(mv)
    ensures var m' := Apply(env, e, m, mv);
            m'.h == m.h.(wrong := m'.h.wrong, steps := m'.h.steps)
    ensures !mv.Clear? && !mv.Fail? ==> Apply(env, e, m, mv).h.wrong == m.h.wrong
    ensures !mv.Accept? && !mv.Enable? ==> Apply(env, e, m, mv).h.steps == m.h.steps
  {
  }

  lemma SessionHistoryFrame(env: Env, e: Event, m: Machine, mv: Move)
    requires Allowed(env, e, m, mv) && OnSession(mv)
    ensures var h, h' := m.h, Apply(env, e, m, mv).h;
            && h' == h.(okAt := h'.okAt, issued := h'.issued, spent := h'.spent,
                        offered := h'.offered, deviceChallenges := h'.deviceChallenges)
            && (!mv.Confirm? ==> h'.okAt == h.okAt)
            && (!mv.Ask? ==> h'.issued == h.issued)
            && (!mv.Spend? ==> h'.spent == h.spent)
            && (!mv.Offer? ==> h'.offered == h.offered && h'.deviceChallenges == h.deviceChallenges)
  {
    if mv.Confirm? {
    } else if mv.Ask? {
    } else if mv.Spend? {
    } else if mv.Offer? {
    }
  }

  lemma OtherHistoryFrame(env: Env, e: Event, m: Machine, mv: Move)
    requires Allowed(env, e, m, mv) && !OnAccount(mv) && !OnSession(mv)
    ensures var h, h' := m.h, Apply(env, e, m, mv).h;
            && h' == h.(proved := h'.proved, pendingBorn := h'.pendingBorn,
                        answered := h'.answered, deviceChallenges := h'.deviceChallenges, cookies := h'.cookies)
            && (!OnBinding(mv) ==>
                  h'.answered == h.answered && h'.cookies == h.cookies && h'.deviceChallenges == h.deviceChallenges)
            && (mv.Rechallenge? ==> h'.answered == h.answered && h'.cookies == h.cookies)
  {
  }

  lemma HistoryFrame(env: Env, e: Event, m: Machine, mv: Move)
    requires Allowed(env, e, m, mv)
    ensures var h, h' := m.h, Apply(env, e, m, mv).h;
            && (!mv.Confirm? ==> h'.okAt == h.okAt)
            && (!mv.Clear? && !mv.Fail? ==> h'.wrong == h.wrong)
            && (!mv.Accept? && !mv.Enable? ==> h'.steps == h.steps)
            && (!mv.Ask? ==> h'.issued == h.issued)
            && (!mv.Spend? ==> h'.spent == h.spent)
            && (!mv.Offer? ==> h'.offered == h.offered)
            && (!mv.Bind? && !mv.Renew? ==> h'.answered == h.answered && h'.cookies == h.cookies)
            && (!OnBinding(mv) && !mv.Offer? ==> h'.deviceChallenges == h.deviceChallenges)
  {
    if OnAccount(mv) {
      AccountHistoryFrame(env, e, m, mv);
    } else if OnSession(mv) {
      SessionHistoryFrame(env, e, m, mv);
    } else {
      OtherHistoryFrame(env, e, m, mv);
    }
  }

  // ---- Sequences of moves -----------------------------------------------------------------------------

  ghost predicate Path(env: Env, e: Event, m: Machine, mvs: seq<Move>, m': Machine)
    decreases |mvs|
  {
    if mvs == [] then m == m'
    else Allowed(env, e, m, mvs[0]) && Path(env, e, Apply(env, e, m, mvs[0]), mvs[1..], m')
  }

  ghost predicate Reaches(env: Env, e: Event, m: Machine, m': Machine) {
    exists mvs :: Path(env, e, m, mvs, m')
  }

  lemma Stays(env: Env, e: Event, m: Machine)
    ensures Reaches(env, e, m, m)
  {
    assert Path(env, e, m, [], m);
  }

  lemma {:induction false} PathThen(env: Env, e: Event, m: Machine, mvs: seq<Move>, mid: Machine, mv: Move)
    requires Path(env, e, m, mvs, mid) && Allowed(env, e, mid, mv)
    ensures Path(env, e, m, mvs + [mv], Apply(env, e, mid, mv))
    decreases |mvs|
  {
    var all := mvs + [mv];
    if mvs == [] {
      assert all[1..] == [];
    } else {
      PathThen(env, e, Apply(env, e, m, mvs[0]), mvs[1..], mid, mv);
      assert all[1..] == mvs[1..] + [mv];
    }
  }

  /** One move further. */
  lemma Then(env: Env, e: Event, m: Machine, mid: Machine, mv: Move)
    requires Reaches(env, e, m, mid) && Allowed(env, e, mid, mv)
    ensures Reaches(env, e, m, Apply(env, e, mid, mv))
  {
    var mvs :| Path(env, e, m, mvs, mid);
    PathThen(env, e, m, mvs, mid, mv);
  }

  // ---- One move further, spelled out ------------------------------------------------------------------

  lemma Noting(env: Env, e: Event, m0: Machine, m: Machine, proved: set<nat>,
               pendingBorn: set<nat>) returns (m': Machine)
    requires Reaches(env, e, m0, m)
    requires forall s :: s in proved ==> MayNote(e, s)
    requires pendingBorn == {} || (e.SignIn? && pendingBorn == {e.born})
    ensures m' == m.(h := m.h.(proved := m.h.proved + proved, pendingBorn := m.h.pendingBorn + pendingBorn))
    ensures Reaches(env, e, m0, m')
  {
    Then(env, e, m0, m, Note(proved, pendingBorn));
    m' := Apply(env, e, m, Note(proved, pendingBorn));
  }

  lemma Ending(env: Env, e: Event, m0: Machine, m: Machine, gone: set<nat>) returns (m': Machine)
    requires Reaches(env, e, m0, m)
    requires MayEndAll(m.t, e, m.now, gone)
    ensures m' == m.(t := EndSessions(m.t, gone))
    ensures Reaches(env, e, m0, m')
  {
    Then(env, e, m0, m, End(gone));
    m' := Apply(env, e, m, End(gone));
  }

  lemma Starting(env: Env, e: Event, m0: Machine, m: Machine, s: nat, row: Session) returns (m': Machine)
    requires Reaches(env, e, m0, m)
    requires s !in m.used && MayStart(env, e, m, s, row)
    ensures m' == m.(t := WithSession(m.t, s, row), used := m.used + {s})
    ensures Reaches(env, e, m0, m')
  {
    Then(env, e, m0, m, Start(s, row));
    m' := Apply(env, e, m, Start(s, row));
  }

  lemma Confirming(env: Env, e: Event, m0: Machine, m: Machine, s: nat) returns (m': Machine)
    requires Reaches(env, e, m0, m)
    requires s in m.t.sessions && SignsIn(e, s)
    ensures m' == m.(t := MarkConfirmed(m.t, env, s, m.now), h := Confirms(m.h, s, m.now))
    ensures Reaches(env, e, m0, m')
  {
    Then(env, e, m0, m, Move.Confirm(s));
    m' := Apply(env, e, m, Move.Confirm(s));
  }

  lemma Striking(env: Env, e: Event, m0: Machine, m: Machine, s: nat) returns (m': Machine)
    requires Reaches(env, e, m0, m)
    requires s in m.t.sessions && m.t.sessions[s].attempts + 1 < MAX_TOTP_ATTEMPTS
    ensures m' == m.(t := WithSession(m.t, s, m.t.sessions[s].(attempts := m.t.sessions[s].attempts + 1)))
    ensures Reaches(env, e, m0, m')
  {
    Then(env, e, m0, m, Strike(s));
    m' := Apply(env, e, m, Strike(s));
  }

  lemma Verifying(env: Env, e: Event, m0: Machine, m: Machine, who: set<nat>) returns (m': Machine)
    requires Reaches(env, e, m0, m)
    requires MayVerify(m.t, e, who)
    ensures m' == m.(t := VerifySessions(m.t, who))
    ensures Reaches(env, e, m0, m')
  {
    Then(env, e, m0, m, Verify(who));
    m' := Apply(env, e, m, Verify(who));
  }

  lemma Clearing(env: Env, e: Event, m0: Machine, m: Machine, a: nat, until: Option<nat>) returns (m': Machine)
    requires Reaches(env, e, m0, m)
    requires MayClear(e) && a in m.t.accounts && (until.None? || until == m.t.accounts[a].lockedUntil)
    ensures m' == m.(t := WithAccount(m.t, a, m.t.accounts[a].(failed := 0, lockedUntil := until)), h := Reset(m.h, a))
    ensures Reaches(env, e, m0, m')
  {
    Then(env, e, m0, m, Clear(a, until));
    m' := Apply(env, e, m, Clear(a, until));
  }

  lemma Failing(env: Env, e: Event, m0: Machine, m: Machine, a: nat) returns (m': Machine)
    requires Reaches(env, e, m0, m)
    requires a in m.t.accounts && !IsTotpLocked(m.t.accounts[a], m.now) && TriesCode(e)
    ensures m' == m.(t := WithAccount(m.t, a, AfterFailure(m.t.accounts[a], m.now)), h := Wrong(m.h, a, m.now))
    ensures Reaches(env, e, m0, m')
  {
    Then(env, e, m0, m, Fail(a));
    m' := Apply(env, e, m, Fail(a));
  }

  lemma Accepting(env: Env, e: Event, m0: Machine, m: Machine, a: nat, code: seq<ascii>) returns (m': Machine)
    requires Reaches(env, e, m0, m)
    requires a in m.t.accounts && CodeStep(env, m.t.accounts[a], code, m.now).Some?
    ensures m' == m.(t := WithAccount(m.t, a, m.t.accounts[a].(lastStep := CodeStep(env, m.t.accounts[a], code, m.now))),
                    h := Stepped(m.h, m.t.accounts[a].secret, CodeStep(env, m.t.accounts[a], code, m.now), m.now))
    ensures Reaches(env, e, m0, m')
  {
    Then(env, e, m0, m, Accept(a, code));
    m' := Apply(env, e, m, Accept(a, code));
  }

  lemma Enrolling(env: Env, e: Event, m0: Machine, m: Machine, a: nat, secret: nat) returns (m': Machine)
    requires Reaches(env, e, m0, m)
    requires a in m.t.accounts && m.t.accounts[a].enabledAt.None? && secret !in m.used
    ensures m' == m.(t := WithAccount(m.t, a, m.t.accounts[a].(secret := Some(secret), lastStep := None)),
                     used := m.used + {secret})
    ensures Reaches(env, e, m0, m')
  {
    Then(env, e, m0, m, Enrol(a, secret));
    m' := Apply(env, e, m, Enrol(a, secret));
  }

  lemma Enabling(env: Env, e: Event, m0: Machine, m: Machine, a: nat, code: seq<ascii>) returns (m': Machine)
    requires Reaches(env, e, m0, m)
    requires a in m.t.accounts && EnrolStep(env, m.t.accounts[a], code, m.now).Some?
    ensures m' == m.(t := WithAccount(m.t, a, m.t.accounts[a].(enabledAt := Some(m.now), lastStep := EnrolStep(env,
        m.t.accounts[a], code, m.now))),
                    h := Stepped(m.h, m.t.accounts[a].secret, EnrolStep(env, m.t.accounts[a], code, m.now), m.now))
    ensures Reaches(env, e, m0, m')
  {
    Then(env, e, m0, m, Move.Enable(a, code));
    m' := Apply(env, e, m, Move.Enable(a, code));
  }

  lemma Unenrolling(env: Env, e: Event, m0: Machine, m: Machine, a: nat) returns (m': Machine)
    requires Reaches(env, e, m0, m)
    requires a in m.t.accounts && MayClear(e)
    ensures m' == m.(t := DropRecoveryCodesIfUnused(WithAccount(m.t, a, m.t.accounts[a].(secret := None,
        enabledAt := None, lastStep := None)), a))
    ensures Reaches(env, e, m0, m')
  {
    Then(env, e, m0, m, Unenrol(a));
    m' := Apply(env, e, m, Unenrol(a));
  }

  lemma Redeeming(env: Env, e: Event, m0: Machine, m: Machine, a: nat, code: seq<ascii>) returns (m': Machine)
    requires Reaches(env, e, m0, m)
    requires a in m.t.accounts && Redeemable(CodesOf(m.t, a), code)
    ensures m' == m.(t := ConsumeRecoveryCode(m.t, a, code).0)
    ensures Reaches(env, e, m0, m')
  {
    Then(env, e, m0, m, Redeem(a, code));
    m' := Apply(env, e, m, Redeem(a, code));
  }

  lemma Replacing(env: Env, e: Event, m0: Machine, m: Machine, a: nat, random: seq<seq<byte>>) returns (m': Machine)
    requires Reaches(env, e, m0, m)
    requires ReplacesCodes(m.t, e, a) && a in m.t.accounts && HasSecondFactor(m.t, a) && Draws(random)
    ensures m' == m.(t := ReplaceRecoveryCodes(m.t, a, random))
    ensures Reaches(env, e, m0, m')
  {
    Then(env, e, m0, m, Replace(a, random));
    m' := Apply(env, e, m, Replace(a, random));
  }

  lemma Asking(env: Env, e: Event, m0: Machine, m: Machine, s: nat, purpose: Purpose,
               challenge: nat) returns (m': Machine)
    requires Reaches(env, e, m0, m)
    requires s in m.t.sessions && challenge !in m.used && challenge in Names(e) && AsksFor(e, s, purpose)
    ensures m' == m.(t := BeginCeremony(m.t, s, purpose, challenge, m.now),
                     h := Issued(m.h, challenge, s, purpose, m.now), used := m.used + {challenge})
    ensures Reaches(env, e, m0, m')
  {
    Then(env, e, m0, m, Ask(s, purpose, challenge));
    m' := Apply(env, e, m, Ask(s, purpose, challenge));
  }

  lemma Spending(env: Env, e: Event, m0: Machine, m: Machine, s: nat, purpose: Purpose) returns (m': Machine)
    requires Reaches(env, e, m0, m)
    requires s in m.t.sessions && AnswersFor(e, s, purpose)
    ensures m' == m.(t := TakeChallenge(m.t, s), h := Attempted(m.h, m.t, s))
    ensures Reaches(env, e, m0, m')
  {
    Then(env, e, m0, m, Spend(s, purpose));
    m' := Apply(env, e, m, Spend(s, purpose));
  }

  lemma Counting(env: Env, e: Event, m0: Machine, m: Machine, c: seq<byte>, count: nat) returns (m': Machine)
    requires Reaches(env, e, m0, m)
    requires c in m.t.passkeys && ((count == 0 && m.t.passkeys[c].signCount == 0) || count > m.t.passkeys[c].signCount)
    ensures m' == m.(t := m.t.(passkeys := m.t.passkeys[c := m.t.passkeys[c].(signCount := count)]))
    ensures Reaches(env, e, m0, m')
  {
    Then(env, e, m0, m, Count(c, count));
    m' := Apply(env, e, m, Count(c, count));
  }

  lemma Adding(env: Env, e: Event, m0: Machine, m: Machine, c: seq<byte>, key: Passkey) returns (m': Machine)
    requires Reaches(env, e, m0, m)
    requires c !in m.t.passkeys && key.account in m.t.accounts && key.id !in m.used
    ensures m' == m.(t := m.t.(passkeys := m.t.passkeys[c := key]), used := m.used + {key.id})
    ensures Reaches(env, e, m0, m')
  {
    Then(env, e, m0, m, AddKey(c, key));
    m' := Apply(env, e, m, AddKey(c, key));
  }

  lemma Dropping(env: Env, e: Event, m0: Machine, m: Machine, a: nat, gone: set<seq<byte>>) returns (m': Machine)
    requires Reaches(env, e, m0, m)
    requires forall c :: c in gone && c in m.t.passkeys ==> m.t.passkeys[c].account == a
    ensures m' == m.(t := DropRecoveryCodesIfUnused(m.t.(passkeys := m.t.passkeys - gone), a))
    ensures Reaches(env, e, m0, m')
  {
    Then(env, e, m0, m, DropKeys(a, gone));
    m' := Apply(env, e, m, DropKeys(a, gone));
  }

  lemma Editing(env: Env, e: Event, m0: Machine, m: Machine, a: nat, account: Account) returns (m': Machine)
    requires Reaches(env, e, m0, m)
    requires MayEdit(m.t, a, account)
    ensures m' == m.(t := WithAccount(m.t, a, account))
    ensures Reaches(env, e, m0, m')
  {
    Then(env, e, m0, m, Edit(a, account));
    m' := Apply(env, e, m, Edit(a, account));
  }

  lemma Creating(env: Env, e: Event, m0: Machine, m: Machine, a: nat, account: Account) returns (m': Machine)
    requires Reaches(env, e, m0, m)
    requires a !in m.used && account == NewAccount(account.password, account.role, account.mustChange)
    ensures m' == m.(t := WithAccount(m.t, a, account), used := m.used + {a})
    ensures Reaches(env, e, m0, m')
  {
    Then(env, e, m0, m, Create(a, account));
    m' := Apply(env, e, m, Create(a, account));
  }

  lemma Deleting(env: Env, e: Event, m0: Machine, m: Machine, a: nat) returns (m': Machine)
    requires Reaches(env, e, m0, m)
    requires a in m.t.accounts && StillAdministered(m.t, a, false)
    ensures m' == m.(t := m.t.(accounts := m.t.accounts - {a}, passkeys := m.t.passkeys - PasskeysOf(m.t, a),
                               codes := m.t.codes - {a}))
    ensures Reaches(env, e, m0, m')
  {
    Then(env, e, m0, m, Delete(a));
    m' := Apply(env, e, m, Delete(a));
  }

  lemma Offering(env: Env, e: Event, m0: Machine, m: Machine, s: nat, challenge: nat) returns (m': Machine)
    requires Reaches(env, e, m0, m)
    requires Offerable(m.t, s) && challenge !in m.used && Loads(e, s)
    ensures m' == m.(t := OfferBinding(m.t, s, challenge, m.now).0, used := m.used + {challenge},
                    h := m.h.(offered := m.h.offered + {s},
                              deviceChallenges := m.h.deviceChallenges[challenge := OfferedTo(s)]))
    ensures Reaches(env, e, m0, m')
  {
    Then(env, e, m0, m, Offer(s, challenge));
    m' := Apply(env, e, m, Offer(s, challenge));
  }

  lemma BindingMove(env: Env, e: Event, m0: Machine, m: Machine, s: nat, proof: Proof, b: nat,
                    cookie: nat) returns (m': Machine)
    requires Reaches(env, e, m0, m)
    requires Registrable(m.t, s, proof) && b !in m.used && cookie !in m.used && b != cookie
               && Registers(e, s, proof, b, cookie)
    ensures m' == m.(t := RegisterBinding(m.t, s, proof, b, cookie, m.now).0, used := m.used + {b, cookie},
                    h := m.h.(answered := m.h.answered + {proof.jti},
                              cookies := m.h.cookies[cookie := IssuedCookie(b, m.now)]))
    ensures Reaches(env, e, m0, m')
  {
    Then(env, e, m0, m, Move.Bind(s, proof, b, cookie));
    m' := Apply(env, e, m, Move.Bind(s, proof, b, cookie));
  }

  lemma Rechallenging(env: Env, e: Event, m0: Machine, m: Machine, b: nat, challenge: nat) returns (m': Machine)
    requires Reaches(env, e, m0, m)
    requires b in m.t.bindings && challenge !in m.used && e.Refresh? && e.b == b
    ensures m' == m.(t := m.t.(bindings := m.t.bindings[b := Rechallenged(m.t.bindings[b], m.now, challenge)]),
                    h := m.h.(deviceChallenges := m.h.deviceChallenges[challenge := IssuedFor(b)]),
                    used := m.used + {challenge})
    ensures Reaches(env, e, m0, m')
  {
    Then(env, e, m0, m, Rechallenge(b, challenge));
    m' := Apply(env, e, m, Rechallenge(b, challenge));
  }

  lemma Renewing(env: Env, e: Event, m0: Machine, m: Machine, b: nat, proof: Proof, cookie: nat,
                 challenge: nat) returns (m': Machine)
    requires Reaches(env, e, m0, m)
    requires b in m.t.bindings && Answers(m.t.bindings[b], proof, m.now)
      && cookie !in m.used && challenge !in m.used && cookie != challenge
        && e == Refresh(b, Some(proof), cookie, challenge)
    ensures m' == m.(t := m.t.(bindings := m.t.bindings[b := AfterRenewal(m.t.bindings[b], m.now, cookie, challenge)]),
                    h := m.h.(answered := m.h.answered + {proof.jti},
                              deviceChallenges := m.h.deviceChallenges[challenge := IssuedFor(b)],
                              cookies := m.h.cookies[cookie := IssuedCookie(b, m.now)]),
                    used := m.used + {cookie, challenge})
    ensures Reaches(env, e, m0, m')
  {
    Then(env, e, m0, m, Renew(b, proof, cookie, challenge));
    m' := Apply(env, e, m, Renew(b, proof, cookie, challenge));
  }

  lemma Passing(env: Env, e: Event, m0: Machine, m: Machine, ms: nat) returns (m': Machine)
    requires Reaches(env, e, m0, m)
    requires e == Tick(ms)
    ensures m' == m.(now := m.now + ms)
    ensures Reaches(env, e, m0, m')
  {
    Then(env, e, m0, m, Pass(ms));
    m' := Apply(env, e, m, Pass(ms));
  }
}
