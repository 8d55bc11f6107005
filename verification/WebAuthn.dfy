/**
 * Passkey ceremonies (src/webauthn.ts): the authenticator-data layout (section 6.1 of W3C Web
 * Authentication Level 2) and the checks of a registration and of an assertion (sections 7.1
 * and 7.2). Keys and signatures are judged by functions the model knows nothing about.
 */
module WebAuthn {
  import opened Common

  // ---- Authenticator data -----------------------------------------------------------------------------

  datatype AuthData = AuthData(rpIdHash: seq<byte>, flags: byte, signCount: nat, credentialId: Option<seq<byte>>)

  datatype WebAuthnError =
    | AuthDataTooShort | CredentialDataTooShort | CredentialIdTruncated
    | Malformed | NotJson | WrongCeremonyType | ChallengeMismatch | OriginMismatch | CrossOriginCeremony
    | RpIdMismatch | UserNotPresent
    | NoCredential | CredentialIdMismatch | UnsupportedAlgorithm | UnusableKey
    | BadSignature | CounterWentBackwards
    | NoPendingChallenge | UnknownPasskey | TooManyPasskeys | AlreadyRegistered

  predicate UserPresent(flags: byte) {
    flags % 2 == 1
  }

  /** Flag AT: attested credential data follows. */
  predicate Attested(flags: byte) {
    flags / 64 % 2 == 1
  }

  function U16(data: seq<byte>, at: nat): (n: nat)
    requires at + 2 <= |data|
    ensures n < 0x1_0000
  {
    var b0: nat, b1: nat := data[at], data[at + 1];
    b0 * 0x100 + b1
  }

  function U32(data: seq<byte>, at: nat): (n: nat)
    requires at + 4 <= |data|
    ensures n < 0x1_0000_0000
  {
    U16(data, at) * 0x1_0000 + U16(data, at + 2)
  }

  function ParseAuthData(data: seq<byte>): Result<AuthData, WebAuthnError> {
    if |data| < 37 then Err(AuthDataTooShort)
    else
      var flags := data[32];
      if Attested(flags) then
        if |data| < 55 then Err(CredentialDataTooShort)
        else if |data| < 55 + U16(data, 53) then Err(CredentialIdTruncated)
        else Ok(AuthData(data[..32], flags, U32(data, 33), Some(data[55..55 + U16(data, 53)])))
      else Ok(AuthData(data[..32], flags, U32(data, 33), None))
  }

  function Put16(n: nat): (s: seq<byte>)
    requires n < 0x1_0000
    ensures |s| == 2
  {
    [n / 0x100, n % 0x100]
  }

  function Put32(n: nat): (s: seq<byte>)
    requires n < 0x1_0000_0000
    ensures |s| == 4
  {
    Put16(n / 0x1_0000) + Put16(n % 0x1_0000)
  }

  /** What an authenticator can report. */
  predicate Reportable(ad: AuthData) {
    && |ad.rpIdHash| == 32
    && ad.signCount < 0x1_0000_0000
    && (Attested(ad.flags) <==> ad.credentialId.Some?)
    && (ad.credentialId.Some? ==> |ad.credentialId.value| < 0x1_0000)
  }

  /** The layout of section 6.1; `tail` is the credential key and any extensions. */
  function Serialise(ad: AuthData, aaguid: seq<byte>, tail: seq<byte>): seq<byte>
    requires Reportable(ad) && |aaguid| == 16
  {
    var head := ad.rpIdHash + [ad.flags] + Put32(ad.signCount);
    if ad.credentialId.Some? then head + aaguid + Put16(|ad.credentialId.value|) + ad.credentialId.value + tail
    else head + tail
  }

  lemma HeadReads(hash: seq<byte>, flags: byte, count: nat, rest: seq<byte>)
    requires |hash| == 32 && count < 0x1_0000_0000
    ensures var data := hash + [flags] + Put32(count) + rest;
            && |data| == 37 + |rest| && data[..32] == hash && data[32] == flags && U32(data, 33) == count
              && data[37..] == rest
  {
    var data := hash + [flags] + Put32(count) + rest;
    assert data[33] == Put32(count)[0] && data[34] == Put32(count)[1] && data[35] == Put32(count)[2]
             && data[36] == Put32(count)[3];
  }

  /** Parsing gives back whatever was serialised. */
  lemma ParseSerialise(ad: AuthData, aaguid: seq<byte>, tail: seq<byte>)
    requires Reportable(ad) && |aaguid| == 16
    ensures ParseAuthData(Serialise(ad, aaguid, tail)) == Ok(ad)
  {
    var data := Serialise(ad, aaguid, tail);
    if ad.credentialId.Some? {
      var id := ad.credentialId.value;
      var rest := aaguid + Put16(|id|) + id + tail;
      HeadReads(ad.rpIdHash, ad.flags, ad.signCount, rest);
      assert data == ad.rpIdHash + [ad.flags] + Put32(ad.signCount) + rest;
      assert data[53] == data[37..][16] == rest[16] && data[54] == data[37..][17] == rest[17];
      assert U16(data, 53) == |id|;
      assert data[55..55 + |id|] == data[37..][18..18 + |id|];
    } else {
      HeadReads(ad.rpIdHash, ad.flags, ad.signCount, tail);
    }
  }

  lemma PutBack(data: seq<byte>, at: nat)
    requires at + 4 <= |data|
    ensures Put32(U32(data, at)) == data[at..at + 4]
    ensures Put16(U16(data, at)) == data[at..at + 2]
  {
    assert U32(data, at) / 0x1_0000 == U16(data, at) && U32(data, at) % 0x1_0000 == U16(data, at + 2);
  }

  /** Everything the parser accepts has the layout, and is read at the right places. */
  lemma ParsedIsSerialised(data: seq<byte>)
    requires ParseAuthData(data).Ok?
    ensures var ad := ParseAuthData(data).value;
            && Reportable(ad)
            && exists aaguid, tail :: |aaguid| == 16 && data == Serialise(ad, aaguid, tail)
  {
    var ad := ParseAuthData(data).value;
    PutBack(data, 33);
    if ad.credentialId.Some? {
      var len := U16(data, 53);
      var aaguid, tail := data[37..53], data[55 + len..];
      assert Put16(len) == data[53..55];
      assert data == data[..32] + [data[32]] + data[33..37] + data[37..53] + data[53..55] + data[55..55 + len] + data[55 + len..];
      assert data == Serialise(ad, aaguid, tail);
    } else {
      var aaguid := seq(16, _ => 0);
      assert data == data[..32] + [data[32]] + data[33..37] + data[37..];
      assert data == Serialise(ad, aaguid, data[37..]);
    }
  }

  /** Refused exactly when shorter than its own flags and length field require. */
  lemma ParseRefusesExactlyShort(data: seq<byte>)
    ensures ParseAuthData(data).Err? <==>
            || |data| < 37
            || (Attested(data[32]) && (|data| < 55 || |data| < 55 + U16(data, 53)))
  {
  }

  /** `data` is the layout of these fields, whatever the authenticator model and the extensions. */
  ghost predicate LaysOut(data: seq<byte>, ad: AuthData) {
    Reportable(ad) && exists aaguid, tail :: |aaguid| == 16 && data == Serialise(ad, aaguid, tail)
  }

  /** The parser is exact: it returns the fields the data is a layout of, and refuses what is a layout of none. */
  lemma ParseExact(data: seq<byte>, ad: AuthData)
    ensures ParseAuthData(data) == Ok(ad) <==> LaysOut(data, ad)
    ensures ParseAuthData(data).Err? <==> forall other :: !LaysOut(data, other)
  {
    if ParseAuthData(data).Ok? {
      ParsedIsSerialised(data);
      assert LaysOut(data, ParseAuthData(data).value);
    }
    forall other | LaysOut(data, other) ensures ParseAuthData(data) == Ok(other) {
      var aaguid, tail :| |aaguid| == 16 && data == Serialise(other, aaguid, tail);
      ParseSerialise(other, aaguid, tail);
    }
  }

  // ---- Ceremonies -------------------------------------------------------------------------------------

  datatype CeremonyType = Create | Get | OtherType

  /** The client data a browser signs, once it has been read as JSON. */
  datatype ClientData = ClientData(ceremony: CeremonyType, challenge: nat, origin: string, crossOrigin: bool)

  datatype Expected = Expected(challenge: nat, origin: string, rpIdHash: seq<byte>)

  /** What is left to cryptography: usable keys and valid signatures. */
  datatype Keys = Keys(
    usable: (seq<byte>, int) -> bool,
    signed: (seq<byte>, int, seq<byte>, ClientData, seq<byte>) -> bool)

  function CheckClientData(client: Option<ClientData>, ceremony: CeremonyType, exp: Expected): Option<WebAuthnError> {
    if client.None? then Some(NotJson)
    else if client.value.ceremony != ceremony then Some(WrongCeremonyType)
    else if client.value.challenge != exp.challenge then Some(ChallengeMismatch)
    else if client.value.origin != exp.origin then Some(OriginMismatch)
    else if client.value.crossOrigin then Some(CrossOriginCeremony)
    else None
  }

  function CheckAuthData(ad: AuthData, exp: Expected): Option<WebAuthnError> {
    if ad.rpIdHash != exp.rpIdHash then Some(RpIdMismatch)
    else if !UserPresent(ad.flags) then Some(UserNotPresent)
    else None
  }

  datatype RegistrationInput = RegistrationInput(
    client: Option<ClientData>, authData: seq<byte>, publicKey: seq<byte>, algorithm: int, credentialId: seq<byte>)

  datatype Registration = Registration(credentialId: seq<byte>, publicKey: seq<byte>, algorithm: int, signCount: nat)

  function VerifyRegistration(keys: Keys, input: RegistrationInput, exp: Expected): Result<Registration, WebAuthnError> {
    var bad := CheckClientData(input.client, Create, exp);
    if bad.Some? then Err(bad.value)
    else
      match ParseAuthData(input.authData)
      case Err(e) => Err(e)
      case Ok(ad) =>
        var bad := CheckAuthData(ad, exp);
        if bad.Some? then Err(bad.value)
        else if ad.credentialId.None? then Err(NoCredential)
        else if input.credentialId == [] then Err(Malformed)
        else if input.credentialId != ad.credentialId.value || |input.credentialId| > 1023 then Err(CredentialIdMismatch)
        else if input.algorithm != -8 && input.algorithm != -7 && input.algorithm != -257 then Err(UnsupportedAlgorithm)
        else if input.publicKey == [] then Err(Malformed)
        else if !keys.usable(input.publicKey, input.algorithm) then Err(UnusableKey)
        else Ok(Registration(input.credentialId, input.publicKey, input.algorithm, ad.signCount))
  }

  datatype AssertionInput = AssertionInput(client: Option<ClientData>, authData: seq<byte>, signature: seq<byte>)

  /** The new signature counter of an accepted assertion. */
  function VerifyAssertion(keys: Keys, input: AssertionInput, publicKey: seq<byte>, algorithm: int, stored: nat,
                           exp: Expected)
    : Result<nat, WebAuthnError>
  {
    var bad := CheckClientData(input.client, Get, exp);
    if input.signature == [] then Err(Malformed)
    else if bad.Some? then Err(bad.value)
    else
      match ParseAuthData(input.authData)
      case Err(e) => Err(e)
      case Ok(ad) =>
        var bad := CheckAuthData(ad, exp);
        if bad.Some? then Err(bad.value)
        else if !keys.usable(publicKey, algorithm) then Err(UnusableKey)
        else if !keys.signed(publicKey, algorithm, input.authData, input.client.value, input.signature) then Err(BadSignature)
        else if (ad.signCount != 0 || stored != 0) && ad.signCount <= stored then Err(CounterWentBackwards)
        else Ok(ad.signCount)
  }

  /** Section 7.2, step 21: the counter goes up, or both sides have none. */
  lemma CounterAdvances(keys: Keys, input: AssertionInput, publicKey: seq<byte>, algorithm: int, stored: nat,
                        exp: Expected)
    ensures var r := VerifyAssertion(keys, input, publicKey, algorithm, stored, exp);
            r.Ok? ==> r.value > stored || r.value == stored == 0
  {
  }

  /** An assertion is accepted exactly when it answers this challenge, for this site, signed by this key. */
  lemma AssertionAcceptedExactly(keys: Keys, input: AssertionInput, publicKey: seq<byte>, algorithm: int,
                                 stored: nat, exp: Expected)
    ensures VerifyAssertion(keys, input, publicKey, algorithm, stored, exp).Ok? <==>
            && input.signature != []
            && input.client == Some(ClientData(Get, exp.challenge, exp.origin, false))
            && ParseAuthData(input.authData).Ok?
            && var ad := ParseAuthData(input.authData).value;
               && ad.rpIdHash == exp.rpIdHash && UserPresent(ad.flags)
               && keys.usable(publicKey, algorithm)
               && keys.signed(publicKey, algorithm, input.authData, input.client.value, input.signature)
               && (ad.signCount > stored || ad.signCount == stored == 0)
  {
  }

  /** A registration is accepted exactly when it answers this challenge, for this site, with the key it attests. */
  lemma RegistrationAcceptedExactly(keys: Keys, input: RegistrationInput, exp: Expected)
    ensures VerifyRegistration(keys, input, exp).Ok? <==>
            && input.client == Some(ClientData(Create, exp.challenge, exp.origin, false))
            && ParseAuthData(input.authData).Ok?
            && var ad := ParseAuthData(input.authData).value;
               && ad.rpIdHash == exp.rpIdHash && UserPresent(ad.flags)
               && ad.credentialId == Some(input.credentialId) && 0 < |input.credentialId| <= 1023
               && input.algorithm in {-8, -7, -257} && input.publicKey != [] && keys.usable(input.publicKey, input.algorithm)
  {
  }
}
