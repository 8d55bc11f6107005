/**
 * The panel as a machine: one request is one step, made of the gates in front of its handler
 * and the handler itself, which runs without interruption (src/http/admin.ts,
 * src/http/middleware.ts). Clock ticks, housekeeping and the command line are steps too.
 */
module Panel {
  import opened Common
  import opened Base32
  import opened Totp
  import opened Tables
  import opened Auth
  import opened Passkeys
  import opened Bindings
  import opened Users
  import W = WebAuthn

  // ---- What has happened so far -----------------------------------------------------------------------

  datatype AcceptedStep = AcceptedStep(at: nat, step: int)
  datatype Issue = Issue(session: nat, purpose: Purpose, at: nat)
  datatype DeviceChallenge = OfferedTo(session: nat) | IssuedFor(binding: nat)
  datatype IssuedCookie = IssuedCookie(binding: nat, at: nat)

  /** Written by every step, read by none: the history the promises are about. */
  datatype History = History(
    proved: set<nat>,                          // sessions in which a second factor was proved
    pendingBorn: set<nat>,                     // sessions that started without their second factor
    okAt: map<nat, nat>,                       // session -> its latest sign-in or confirmation
    wrong: map<nat, seq<nat>>,                 // account -> times of wrong codes since the last reset
    steps: map<nat, seq<AcceptedStep>>,        // secret -> steps accepted for it, in order
    issued: map<nat, Issue>,                   // passkey challenge -> what it was issued for
    spent: set<nat>,                           // passkey challenges taken by an attempt that committed
    offered: set<nat>,                         // sessions offered a binding
    answered: set<nat>,                        // device challenges that led to a registration or renewal
    deviceChallenges: map<nat, DeviceChallenge>, // device challenges ever issued, and for what
    cookies: map<nat, IssuedCookie>)           // bound cookie -> when it was issued, and for which binding

  datatype Machine = Machine(t: Tables, now: nat, used: set<nat>, h: History)

  // ---- Steps ------------------------------------------------------------------------------------------

  datatype LoginStep =
    | Logout
    | LoginOptions(challenge: nat)
    | LoginPasskey(credential: seq<byte>, assertion: W.AssertionInput, born: nat, publicId: nat)
    | LoginCode(code: seq<ascii>, born: nat, publicId: nat)

  datatype ConfirmStep =
    | ByCode(code: seq<ascii>)
    | ByPassword(password: string)
    | ConfirmOptions(challenge: nat)
    | WithPasskey(credential: seq<byte>, assertion: W.AssertionInput)

  datatype FactorStep =
    | BeginApp(secret: nat)
    | FinishApp(code: seq<ascii>, random: seq<seq<byte>>)
    | NewCodes(code: seq<ascii>, random: seq<seq<byte>>)
    | DisableApp(code: seq<ascii>)
    | PasskeyOptions(challenge: nat)
    | AddPasskey(registration: W.RegistrationInput, id: nat, random: seq<seq<byte>>)
    | DropPasskey(id: nat)
    | ConfirmedNewCodes(random: seq<seq<byte>>)

  datatype SessionStep =
    | ChangePassword(current: string, next: string)
    | RevokeOthers
    | RevokeOne(publicId: nat)
    | LoadPage(challenge: nat)                 // the first page a complete session loads offers it a binding
    | Bind(proof: Proof, binding: nat, cookie: nat)

  datatype UserStep =
    | AddUser(a: nat, role: Role, password: string)
    | ChangeRole(a: nat, role: Role)
    | NewPassword(a: nat, password: string)
    | ResetFactors(a: nat)
    | Disable(a: nat)
    | Enable(a: nat)
    | Remove(a: nat)

  datatype Request =
    | LoginRequest(l: LoginStep)
    | ConfirmRequest(c: ConfirmStep)
    | FactorRequest(f: FactorStep)
    | SessionRequest(x: SessionStep)
    | UserRequest(u: UserStep)
    | SensitiveRequest                         // downloading a file, issuing a link

  datatype Event =
    | Tick(ms: nat)
    | SignIn(a: nat, password: string, born: nat, publicId: nat)
    | Arrives(s: nat, bound: Option<nat>, r: Request)
    | Refresh(b: nat, proof: Option<Proof>, cookie: nat, challenge: nat)
    | Purge
    | CliCreateAdmin(a: nat, password: string)
    | CliResetPassword(a: nat, password: string)
    | CliDisableTotp(a: nat)

  /** The random values a step draws. */
  function Names(e: Event): set<nat> {
    match e
    case SignIn(_, _, born, publicId) => {born, publicId}
    case Arrives(_, _, r) =>
      (match r
       case LoginRequest(l) =>
         (match l
          case Logout => {}
          case LoginOptions(challenge) => {challenge}
          case LoginPasskey(_, _, born, publicId) => {born, publicId}
          case LoginCode(_, born, publicId) => {born, publicId})
       case ConfirmRequest(c) => if c.ConfirmOptions? then {c.challenge} else {}
       case FactorRequest(f) =>
         (match f
          case BeginApp(secret) => {secret}
          case PasskeyOptions(challenge) => {challenge}
          case AddPasskey(_, id, _) => {id}
          case _ => {})
       case SessionRequest(x) =>
         (match x
          case LoadPage(challenge) => {challenge}
          case Bind(_, binding, cookie) => {binding, cookie}
          case _ => {})
       case UserRequest(u) => if u.AddUser? then {u.a} else {}
       case SensitiveRequest => {})
    case Refresh(_, _, cookie, challenge) => {cookie, challenge}
    case CliCreateAdmin(a, _) => {a}
    case _ => {}
  }

  /** Random values are new, and the two of one step differ; recovery codes are drawn eight at a time. */
  predicate Drawn(used: set<nat>, e: Event) {
    && Names(e) !! used
    && (e.SignIn? ==> e.born != e.publicId)
    && (e.Refresh? ==> e.cookie != e.challenge)
    && (e.Arrives? && e.r.LoginRequest? && e.r.l.LoginPasskey? ==> e.r.l.born != e.r.l.publicId)
    && (e.Arrives? && e.r.LoginRequest? && e.r.l.LoginCode? ==> e.r.l.born != e.r.l.publicId)
    && (e.Arrives? && e.r.SessionRequest? && e.r.x.Bind? ==> e.r.x.binding != e.r.x.cookie)
    && (e.Arrives? && e.r.FactorRequest? ==> DrawnCodes(e.r.f))
  }

  predicate DrawnCodes(f: FactorStep) {
    f.FinishApp? || f.NewCodes? || f.AddPasskey? || f.ConfirmedNewCodes? ==> Draws(f.random)
  }

  // ---- Gates ------------------------------------------------------------------------------------------

  /** `sessionMiddleware`: the session behind the cookie, if it is alive and its binding is satisfied. */
  function Gate(t: Tables, s: nat, bound: Option<nat>, now: nat): (Tables, bool) {
    var (t', alive) := GetSession(t, s, now);
    (t', alive && !CheckBoundCookie(t', s, bound, now).Rejected?)
  }

  /** `requireConfirmed`. */
  predicate Confirmed(t: Tables, s: nat, now: nat) {
    s in t.sessions && t.sessions[s].confirmedUntil.Some? && t.sessions[s].confirmedUntil.value > now
  }

  /** What the gates let through to a handler; the tables are those after the session lookup. */
  predicate Admitted(t: Tables, env: Env, s: nat, now: nat, r: Request)
    requires s in t.sessions && t.sessions[s].account in t.accounts
  {
    match r
    case LoginRequest(_) => true
    case ConfirmRequest(_) => ReportedVerified(t, s)
    case FactorRequest(f) =>
      && ReportedVerified(t, s)
      && (Guarded(r) ==> Confirmed(t, s, now))
    case SessionRequest(_) => ReportedVerified(t, s)
    case UserRequest(_) =>
      && ReportedVerified(t, s) && SetUp(t, env, s)
      && t.accounts[t.sessions[s].account].role.Admin? && Confirmed(t, s, now)
    case SensitiveRequest => ReportedVerified(t, s) && SetUp(t, env, s) && Confirmed(t, s, now)
  }

  /** Handlers behind `requireConfirmed`, or, for the passkey options, behind the same test inline. */
  predicate Guarded(r: Request) {
    || r.UserRequest? || r.SensitiveRequest?
    || (r.FactorRequest? && (r.f.BeginApp? || r.f.PasskeyOptions? || r.f.AddPasskey? || r.f.DropPasskey?
                             || r.f.ConfirmedNewCodes?))
  }

  /** Neither a password to replace nor a required second factor missing. */
  predicate SetUp(t: Tables, env: Env, s: nat)
    requires s in t.sessions && t.sessions[s].account in t.accounts
  {
    var a := t.sessions[s].account;
    !t.accounts[a].mustChange && (env.requireTotp ==> HasSecondFactor(t, a))
  }

  // ---- History entries --------------------------------------------------------------------------------

  function Times(m: map<nat, seq<nat>>, a: nat): seq<nat> {
    if a in m then m[a] else []
  }

  function StepsOf(h: History, secret: nat): seq<AcceptedStep> {
    if secret in h.steps then h.steps[secret] else []
  }

  function Wrong(h: History, a: nat, now: nat): History {
    h.(wrong := h.wrong[a := Times(h.wrong, a) + [now]])
  }

  function Reset(h: History, a: nat): History {
    h.(wrong := h.wrong[a := []])
  }

  /** A sign-in or confirmation of `s` completed now. */
  function Confirms(h: History, s: nat, now: nat): History {
    h.(okAt := h.okAt[s := now])
  }

  function Stepped(h: History, secret: Option<nat>, step: Option<int>, now: nat): History {
    if secret.Some? && step.Some? then
      h.(steps := h.steps[secret.value := StepsOf(h, secret.value) + [AcceptedStep(now, step.value)]])
    else h
  }

  function Issued(h: History, challenge: nat, s: nat, purpose: Purpose, now: nat): History {
    h.(issued := h.issued[challenge := Issue(s, purpose, now)])
  }

  /** An attempt took the session's challenge. */
  function Attempted(h: History, t: Tables, s: nat): History {
    if s in t.sessions && t.sessions[s].ceremony.Some? then h.(spent := h.spent + {t.sessions[s].ceremony.value.challenge})
    else h
  }

  // ---- Handlers ---------------------------------------------------------------------------------------

  function DoSignIn(m: Machine, env: Env, a: nat, password: string, born: nat, publicId: nat): Machine {
    if !Authenticates(m.t, a, password) then m
    else
      var t1 := CreateSession(m.t, env, a, born, publicId, m.now);
      if HasSecondFactor(m.t, a) then m.(t := t1, h := m.h.(pendingBorn := m.h.pendingBorn + {born}))
      else m.(t := MarkConfirmed(t1, env, born, m.now), h := Confirms(m.h, born, m.now))
  }

  /** The second factor has passed in place of `pending`: `signedIn`. */
  function SignedIn(h: History, a: nat, born: nat, now: nat): History {
    var h1 := Confirms(Reset(h, a), born, now);
    h1.(proved := h1.proved + {born})
  }

  function DoLogin(m: Machine, env: Env, s: nat, l: LoginStep): Machine
    requires s in m.t.sessions && m.t.sessions[s].account in m.t.accounts
  {
    var a := m.t.sessions[s].account;
    match l
    case Logout => m.(t := EndSessions(m.t, {s}))
    case LoginOptions(challenge) =>
      if ReportedVerified(m.t, s) || !HasPasskey(m.t, a) then m
      else m.(t := BeginCeremony(m.t, s, ForLogin, challenge, m.now), h := Issued(m.h, challenge, s, ForLogin, m.now))
    case LoginPasskey(credential, assertion, born, publicId) =>
      if ReportedVerified(m.t, s) then m
      else
        var (t1, error) := VerifyPasskeyLogin(m.t, env, s, a, credential, assertion, m.now, born, publicId);
        var h1 := Attempted(m.h, m.t, s);
        if error.Some? then m.(t := t1, h := h1)
        else m.(t := MarkConfirmed(t1, env, born, m.now), h := SignedIn(h1, a, born, m.now))
    case LoginCode(code, born, publicId) =>
      if ReportedVerified(m.t, s) then m
      else
        var (t1, r) := VerifySessionTotp(m.t, env, s, code, m.now, born, publicId);
        if r.LoginOk? then
          var h1 := CodeAccepted(m.h, m.t, env, a, code, m.now);
          m.(t := MarkConfirmed(t1, env, born, m.now), h := SignedIn(h1, a, born, m.now))
        else m.(t := t1, h := if IsTotpLocked(m.t.accounts[a], m.now) then m.h else Wrong(m.h, a, m.now))
  }

  /** A code from the app or a recovery code was accepted. */
  function CodeAccepted(h: History, t: Tables, env: Env, a: nat, code: seq<ascii>, now: nat): History
    requires a in t.accounts
  {
    Stepped(h, t.accounts[a].secret, CodeStep(env, t.accounts[a], code, now), now)
  }

  function DoConfirm(m: Machine, env: Env, s: nat, c: ConfirmStep): Machine
    requires s in m.t.sessions && m.t.sessions[s].account in m.t.accounts
  {
    var a := m.t.sessions[s].account;
    match c
    case ByCode(code) =>
      var (t1, r) := VerifyConfirmCode(m.t, env, a, code, m.now);
      if r.ConfirmOk? then
        var h1 := CodeAccepted(m.h, m.t, env, a, code, m.now);
        // a recovery code leaves the failure count as it is
        var h2 := if CodeStep(env, m.t.accounts[a], code, m.now).Some? then Reset(h1, a) else h1;
        m.(t := MarkConfirmed(t1, env, s, m.now), h := Confirms(h2, s, m.now))
      else m.(t := t1, h := if IsTotpLocked(m.t.accounts[a], m.now) then m.h else Wrong(m.h, a, m.now))
    case ByPassword(password) =>
      if HasSecondFactor(m.t, a) || !Authenticates(m.t, a, password) then m
      else m.(t := MarkConfirmed(m.t, env, s, m.now), h := Confirms(m.h, s, m.now))
    case ConfirmOptions(challenge) =>
      if !HasPasskey(m.t, a) then m
      else m.(t := BeginCeremony(m.t, s, ForConfirm, challenge, m.now), h := Issued(m.h, challenge, s, ForConfirm, m.now))
    case WithPasskey(credential, assertion) =>
      var (t1, error) := VerifyPasskeyConfirm(m.t, env, s, a, credential, assertion, m.now);
      var h1 := Attempted(m.h, m.t, s);
      if error.Some? then m.(t := t1, h := h1)
      else m.(t := MarkConfirmed(t1, env, s, m.now), h := Confirms(h1, s, m.now))
  }

  function DoFactor(m: Machine, env: Env, s: nat, f: FactorStep): Machine
    requires s in m.t.sessions && m.t.sessions[s].account in m.t.accounts && DrawnCodes(f)
  {
    var a := m.t.sessions[s].account;
    match f
    case BeginApp(secret) => m.(t := BeginTotpEnrolment(m.t, a, secret).0)
    case FinishApp(code, random) =>
      var (t1, ok) := ConfirmTotpEnrolment(m.t, env, a, code, m.now, random);
      if !ok then m
      else
        var step := EnrolStep(env, m.t.accounts[a], code, m.now);
        var h1 := Stepped(m.h, m.t.accounts[a].secret, step, m.now);
        m.(t := DestroyOtherSessions(t1, a, s), h := h1.(proved := h1.proved + {s}))
    case NewCodes(code, random) =>
      var (t1, ok) := RegenerateRecoveryCodes(m.t, env, a, code, m.now, random);
      if !ok then m
      else
        var step := CodeStep(env, m.t.accounts[a], code, m.now);
        m.(t := t1, h := Stepped(m.h, m.t.accounts[a].secret, step, m.now))
    case DisableApp(code) =>
      if env.requireTotp && !HasPasskey(m.t, a) then m
      else
        var (t1, ok) := DisableTotp(m.t, env, a, code, s, m.now);
        if !ok then m else m.(t := t1, h := Reset(CodeAccepted(m.h, m.t, env, a, code, m.now), a))
    case PasskeyOptions(challenge) =>
      if |PasskeysOf(m.t, a)| >= MAX_PASSKEYS then m
      else m.(t := BeginCeremony(m.t, s, ForRegister, challenge, m.now),
              h := Issued(m.h, challenge, s, ForRegister, m.now))
    case AddPasskey(registration, id, random) =>
      var (t1, error) := RegisterPasskey(m.t, env, s, a, registration, m.now, id);
      if error.Some? then m
      else
        var t2 := DestroyOtherSessions(t1, a, s);
        var h1 := Attempted(m.h, m.t, s);
        var h2 := h1.(proved := h1.proved + {s});
        // the first factor of the account comes with recovery codes
        if HasSecondFactor(m.t, a) then m.(t := t2, h := h2)
        else m.(t := RegenerateRecoveryCodesConfirmed(t2, a, random).0, h := h2)
    case DropPasskey(id) =>
      if env.requireTotp && m.t.accounts[a].enabledAt.None? && |PasskeysOf(m.t, a)| <= 1 then m
      else m.(t := RemovePasskey(m.t, a, id, s).0)
    case ConfirmedNewCodes(random) =>
      var (t1, ok) := RegenerateRecoveryCodesConfirmed(m.t, a, random);
      if !ok then m else m.(t := t1)
  }

  function DoSession(m: Machine, s: nat, x: SessionStep): Machine
    requires s in m.t.sessions && m.t.sessions[s].account in m.t.accounts
  {
    var a := m.t.sessions[s].account;
    match x
    case ChangePassword(current, next) =>
      var (t1, ok) := ChangeAdminPassword(m.t, a, current, next);
      if !ok then m else m.(t := DestroyOtherSessions(t1, a, s))
    case RevokeOthers => m.(t := DestroyOtherSessions(m.t, a, s))
    case RevokeOne(publicId) => if publicId == m.t.sessions[s].publicId then m
    else m.(t := RevokeSession(m.t, a, publicId).0)
    case LoadPage(challenge) =>
      var (t1, made) := OfferBinding(m.t, s, challenge, m.now);
      if !made then m
      else m.(t := t1, h := m.h.(offered := m.h.offered + {s},
                                 deviceChallenges := m.h.deviceChallenges[challenge := OfferedTo(s)]))
    case Bind(proof, binding, cookie) =>
      var (t1, ok) := RegisterBinding(m.t, s, proof, binding, cookie, m.now);
      if !ok then m
      else m.(t := t1, h := m.h.(answered := m.h.answered + {proof.jti},
                                 cookies := m.h.cookies[cookie := IssuedCookie(binding, m.now)]))
  }

  function DoUser(m: Machine, actor: nat, u: UserStep): Machine {
    match u
    case AddUser(a, role, password) => m.(t := CreateUser(m.t, a, role, password))
    case ChangeRole(a, role) => m.(t := SetUserRole(m.t, actor, a, role).0)
    case NewPassword(a, password) => m.(t := ResetUserPassword(m.t, actor, a, password).0)
    case ResetFactors(a) =>
      var (t1, error) := ResetUserTotp(m.t, actor, a);
      if error.Some? then m else m.(t := t1, h := Reset(m.h, a))
    case Disable(a) => m.(t := SetUserDisabled(m.t, actor, a, true, m.now).0)
    case Enable(a) => m.(t := SetUserDisabled(m.t, actor, a, false, m.now).0)
    case Remove(a) => m.(t := DeleteUser(m.t, actor, a).0)
  }

  function DoRequest(m: Machine, env: Env, s: nat, r: Request): Machine
    requires s in m.t.sessions && m.t.sessions[s].account in m.t.accounts
    requires r.FactorRequest? ==> DrawnCodes(r.f)
  {
    match r
    case LoginRequest(l) => DoLogin(m, env, s, l)
    case ConfirmRequest(c) => DoConfirm(m, env, s, c)
    case FactorRequest(f) => DoFactor(m, env, s, f)
    case SessionRequest(x) => DoSession(m, s, x)
    case UserRequest(u) => DoUser(m, m.t.sessions[s].account, u)
    case SensitiveRequest => m
  }

  function DoRefresh(m: Machine, b: nat, proof: Option<Proof>, cookie: nat, challenge: nat): Machine {
    var (t1, r) := RefreshBinding(m.t, b, proof, cookie, challenge, m.now);
    match r
    case Ended => m
    case Refused => m
    case Challenged => m.(t := t1, h := m.h.(deviceChallenges := m.h.deviceChallenges[challenge := IssuedFor(b)]))
    case Renewed =>
      m.(t := t1,
         h := m.h.(answered := m.h.answered + (if proof.Some? then {proof.value.jti} else {}),
                   deviceChallenges := m.h.deviceChallenges[challenge := IssuedFor(b)],
                   cookies := m.h.cookies[cookie := IssuedCookie(b, m.now)]))
  }

  function Handle(m: Machine, env: Env, e: Event): Machine
    requires Drawn(m.used, e)
  {
    match e
    case Tick(ms) => m.(now := m.now + ms)
    case SignIn(a, password, born, publicId) => DoSignIn(m, env, a, password, born, publicId)
    case Arrives(s, bound, r) =>
      var (t1, passed) := Gate(m.t, s, bound, m.now);
      var m1 := m.(t := t1);
      if passed && Admitted(t1, env, s, m.now, r) then DoRequest(m1, env, s, r) else m1
    case Refresh(b, proof, cookie, challenge) => DoRefresh(m, b, proof, cookie, challenge)
    case Purge => m.(t := PurgeExpiredSessions(m.t, m.now).0)
    case CliCreateAdmin(a, password) => m.(t := CreateAdmin(m.t, a, password).0)
    case CliResetPassword(a, password) => m.(t := SetAdminPassword(m.t, a, password).0)
    case CliDisableTotp(a) => if a in m.t.accounts then m.(t := ResetSecondFactors(m.t, a), h := Reset(m.h, a)) else m
  }

  /** One step: the handler, and its random values are no longer new. */
  function Step(m: Machine, env: Env, e: Event): Machine
    requires Drawn(m.used, e)
  {
    var m1 := Handle(m, env, e);
    m1.(used := m1.used + Names(e))
  }

  // ---- Runs -------------------------------------------------------------------------------------------

  function NoHistory(): History {
    History({}, {}, map[], map[], map[], map[], {}, {}, {}, map[], map[])
  }

  /** A freshly migrated database. */
  predicate Initial(m: Machine) {
    m.t == Tables(map[], map[], map[], map[], map[]) && m.h == NoHistory()
  }

  ghost predicate StepAt(env: Env, ms: seq<Machine>, es: seq<Event>, i: int)
    requires |ms| == |es| + 1 && 0 <= i < |es|
  {
    Drawn(ms[i].used, es[i]) && ms[i + 1] == Step(ms[i], env, es[i])
  }

  ghost predicate Run(env: Env, ms: seq<Machine>, es: seq<Event>) {
    && |ms| == |es| + 1
    && Initial(ms[0])
    && forall i :: 0 <= i < |es| ==> StepAt(env, ms, es, i)
  }
}
