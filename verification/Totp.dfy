/**
 * One-time codes (src/totp.ts): dynamic truncation (section 5.3 of RFC 4226), the search of the
 * verification window (section 5.2 of RFC 6238) and the form of recovery codes.
 */
module Totp {
  import opened Common
  import opened Base32

  // ---- HOTP values ------------------------------------------------------------------------------------

  /** The four bytes the last one points at, without the sign bit; SHA-1 gives twenty bytes. */
  function Truncate(mac: seq<byte>): (code: nat)
    requires |mac| >= 20
  {
    var offset: nat := mac[|mac| - 1] % 16;
    var b0: nat, b1: nat, b2: nat, b3: nat := mac[offset], mac[offset + 1], mac[offset + 2], mac[offset + 3];
    (b0 % 128) * 0x100_0000 + b1 * 0x1_0000 + b2 * 0x100 + b3
  }

  function BigEndian(bs: seq<byte>): nat {
    if bs == [] then 0 else BigEndian(bs[..|bs| - 1]) * 256 + bs[|bs| - 1]
  }

  /** Section 5.3 of RFC 4226: the low 31 bits of the big-endian number at the offset. */
  lemma TruncateIsLow31Bits(mac: seq<byte>)
    requires |mac| >= 20
    ensures var offset := mac[|mac| - 1] % 16;
            Truncate(mac) == BigEndian(mac[offset..offset + 4]) % 0x8000_0000
  {
    var offset := mac[|mac| - 1] % 16;
    var s := mac[offset..offset + 4];
    assert s[..1][..0] == [] && s[..2][..1] == s[..1] && s[..3][..2] == s[..2];
    assert BigEndian(s[..1]) == s[0];
    assert BigEndian(s[..2]) == BigEndian(s[..1]) * 256 + s[1];
    assert BigEndian(s[..3]) == BigEndian(s[..2]) * 256 + s[2];
    var b0: nat, b1: nat, b2: nat, b3: nat := s[0], s[1], s[2], s[3];
    assert BigEndian(s) == b0 * 0x100_0000 + b1 * 0x1_0000 + b2 * 0x100 + b3;
    assert b0 == b0 / 128 * 128 + b0 % 128;
    assert BigEndian(s) == b0 / 128 * 0x8000_0000 + Truncate(mac);
  }

  function Digit(d: nat): ascii
    requires d < 10
  {
    '0' + d as char
  }

  /** `String(n)`. */
  function Decimal(n: nat): (s: seq<ascii>)
    ensures |s| > 0
  {
    if n < 10 then [Digit(n)] else Decimal(n / 10) + [Digit(n % 10)]
  }

  /** `padStart(k, '0')`. */
  function PadStart(s: seq<ascii>, k: nat): seq<ascii> {
    if |s| >= k then s else seq(k - |s|, _ => '0') + s
  }

  predicate IsDigit(c: ascii) {
    '0' <= c <= '9'
  }

  function DigitValue(c: ascii): nat
    requires IsDigit(c)
  {
    c as int - '0' as int
  }

  function ValueOf(s: seq<ascii>): nat
    requires forall i :: 0 <= i < |s| ==> IsDigit(s[i])
  {
    if s == [] then 0 else ValueOf(s[..|s| - 1]) * 10 + DigitValue(s[|s| - 1])
  }

  function Pow10(k: nat): nat {
    if k == 0 then 1 else 10 * Pow10(k - 1)
  }

  lemma {:induction false} DecimalIsShort(n: nat, k: nat)
    requires n < Pow10(k) && k > 0
    ensures |Decimal(n)| <= k
    ensures forall i :: 0 <= i < |Decimal(n)| ==> IsDigit(Decimal(n)[i])
    ensures ValueOf(Decimal(n)) == n
  {
    if n >= 10 {
      DecimalIsShort(n / 10, k - 1);
      assert Decimal(n)[..|Decimal(n)| - 1] == Decimal(n / 10);
    } else {
      assert Decimal(n)[..0] == [];
    }
  }

  lemma {:induction false} LeadingZeros(k: nat, s: seq<ascii>)
    requires forall i :: 0 <= i < |s| ==> IsDigit(s[i])
    ensures var zeros := seq(k,
        _ => '0'); (forall i :: 0 <= i < |zeros + s| ==> IsDigit((zeros + s)[i])) && ValueOf(zeros + s) == ValueOf(s)
    decreases |s| + k
  {
    var zeros := seq(k, _ => '0');
    if s != [] {
      LeadingZeros(k, s[..|s| - 1]);
      assert (zeros + s)[..|zeros + s| - 1] == zeros + s[..|s| - 1];
    } else if k > 0 {
      LeadingZeros(k - 1, s);
      assert zeros + s == zeros;
      assert zeros[..k - 1] == seq(k - 1, _ => '0') + s;
    }
  }

  function Hotp(mac: seq<byte>): seq<ascii>
    requires |mac| >= 20
  {
    PadStart(Decimal(Truncate(mac) % 1000000), 6)
  }

  /** A code is always six digits, and reads as the truncated number modulo a million. */
  lemma HotpIsSixDigits(mac: seq<byte>)
    requires |mac| >= 20
    ensures |Hotp(mac)| == 6
    ensures forall i :: 0 <= i < 6 ==> IsDigit(Hotp(mac)[i])
    ensures ValueOf(Hotp(mac)) == Truncate(mac) % 1000000
  {
    var n := Truncate(mac) % 1000000;
    assert Pow10(3) == 1000;
    assert Pow10(6) == 1000000;
    DecimalIsShort(n, 6);
    LeadingZeros(6 - |Decimal(n)|, Decimal(n));
    assert PadStart(Decimal(n), 6) == seq(6 - |Decimal(n)|, _ => '0') + Decimal(n);
  }

  // ---- Verification window ----------------------------------------------------------------------------

  const STEP_MS: nat := 30000

  function Step(now: nat): nat {
    now / STEP_MS
  }

  predicate Space(c: ascii) {
    c == ' ' || 9 <= c as int <= 13
  }

  function WithoutSpace(s: seq<ascii>): seq<ascii> {
    if s == [] then []
    else if Space(s[|s| - 1]) then WithoutSpace(s[..|s| - 1])
    else WithoutSpace(s[..|s| - 1]) + [s[|s| - 1]]
  }

  predicate SixDigits(s: seq<ascii>) {
    |s| == 6 && forall i :: 0 <= i < 6 ==> IsDigit(s[i])
  }

  /** `hotp` is the account's code at each step. */
  predicate Accepts(hotp: int -> seq<ascii>, code: seq<ascii>, minStep: Option<int>, step: int) {
    && SixDigits(WithoutSpace(code))
    && hotp(step) == WithoutSpace(code)
    && (minStep.Some? ==> step > minStep.value)
  }

  /** The greatest acceptable step from `lo` to `hi`. */
  function Greatest(hotp: int -> seq<ascii>, code: seq<ascii>, minStep: Option<int>, lo: int, hi: int): Option<int>
    decreases hi - lo
  {
    if hi < lo then None
    else if Accepts(hotp, code, minStep, hi) then Some(hi)
    else Greatest(hotp, code, minStep, lo, hi - 1)
  }

  lemma {:induction false} GreatestIsGreatest(hotp: int -> seq<ascii>, code: seq<ascii>, minStep: Option<int>,
                                              lo: int, hi: int)
    ensures var r := Greatest(hotp, code, minStep, lo, hi);
            && (r.None? <==> forall step :: lo <= step <= hi ==> !Accepts(hotp, code, minStep, step))
            && (r.Some? ==> lo <= r.value <= hi && Accepts(hotp, code, minStep, r.value)
                            && forall step :: r.value < step <= hi ==> !Accepts(hotp, code, minStep, step))
    decreases hi - lo
  {
    if lo <= hi && !Accepts(hotp, code, minStep, hi) {
      GreatestIsGreatest(hotp, code, minStep, lo, hi - 1);
    }
  }

  const WINDOW := 1

  /** `verifyTotp` with its default window, as the callers use it. */
  function VerifyTotp(hotp: int -> seq<ascii>, code: seq<ascii>, now: nat, minStep: Option<int>): (r: Option<int>)
  {
    Greatest(hotp, code, minStep, Step(now) - WINDOW, Step(now) + WINDOW)
  }

  /** An accepted step is newer than the last one, within one step of the clock, and the latest that matches. */
  lemma VerifyTotpExact(hotp: int -> seq<ascii>, code: seq<ascii>, now: nat, minStep: Option<int>)
    ensures var r := VerifyTotp(hotp, code, now, minStep);
            && (r.Some? <==> exists step :: Step(now) - 1 <= step <= Step(now) + 1 && Accepts(hotp, code, minStep, step))
            && (r.Some? ==>
                  && Step(now) - 1 <= r.value <= Step(now) + 1
                  && Accepts(hotp, code, minStep, r.value)
                  && forall step :: r.value < step <= Step(now) + 1 ==> !Accepts(hotp, code, minStep, step))
  {
    GreatestIsGreatest(hotp, code, minStep, Step(now) - WINDOW, Step(now) + WINDOW);
  }

  /** The search looks at every candidate, so that its time does not tell which one matched. */
  method SearchWindow(hotp: int -> seq<ascii>, code: seq<ascii>, now: nat,
                      minStep: Option<int>) returns (matched: Option<int>)
    ensures matched == VerifyTotp(hotp, code, now, minStep)
  {
    var clean := WithoutSpace(code);
    matched := None;
    var current := Step(now);
    var step := current - WINDOW;
    if !SixDigits(clean) {
      GreatestIsGreatest(hotp, code, minStep, current - WINDOW, current + WINDOW);
      return None;
    }
    while step <= current + WINDOW
      invariant current - WINDOW <= step <= current + WINDOW + 1
      invariant matched == Greatest(hotp, code, minStep, current - WINDOW, step - 1)
      decreases current + WINDOW - step
    {
      if hotp(step) == clean {
        if minStep.None? || step > minStep.value {
          matched := Some(step);
        }
      }
      step := step + 1;
    }
  }

  // ---- Recovery codes ---------------------------------------------------------------------------------

  function Lower(c: ascii): ascii {
    if 'A' <= c <= 'Z' then c + 32 as char else c
  }

  function ToLower(s: seq<ascii>): (r: seq<ascii>)
    ensures |r| == |s|
    ensures forall i :: 0 <= i < |s| ==> r[i] == Lower(s[i])
  {
    if s == [] then [] else ToLower(s[..|s| - 1]) + [Lower(s[|s| - 1])]
  }

  predicate InCode(c: ascii) {
    'a' <= c <= 'z' || '2' <= c <= '7'
  }

  function NormalizeRecoveryCode(s: seq<ascii>): seq<ascii> {
    if s == [] then []
    else
      var c := Lower(s[|s| - 1]);
      NormalizeRecoveryCode(s[..|s| - 1]) + (if InCode(c) then [c] else [])
  }

  /** Seven random bytes as ten characters. */
  function RawCode(random: seq<byte>): (raw: seq<ascii>)
    requires |random| == 7
    ensures |raw| == 10
  {
    ToLower(Encode(random)[..10])
  }

  /** As it is shown: xxxxx-xxxxx. */
  function ShownCode(random: seq<byte>): seq<ascii>
    requires |random| == 7
  {
    RawCode(random)[..5] + ['-'] + RawCode(random)[5..]
  }

  lemma {:induction false} NormalizeAppend(a: seq<ascii>, b: seq<ascii>)
    ensures NormalizeRecoveryCode(a + b) == NormalizeRecoveryCode(a) + NormalizeRecoveryCode(b)
    decreases |b|
  {
    if b == [] {
      assert a + b == a;
    } else {
      NormalizeAppend(a, b[..|b| - 1]);
      assert (a + b)[..|a + b| - 1] == a + b[..|b| - 1];
    }
  }

  lemma {:induction false} NormalizeKeeps(s: seq<ascii>)
    requires forall i :: 0 <= i < |s| ==> InCode(s[i])
    ensures NormalizeRecoveryCode(s) == s
  {
    if s != [] {
      NormalizeKeeps(s[..|s| - 1]);
      assert InCode(s[|s| - 1]);
    }
  }

  lemma RawCodeInAlphabet(random: seq<byte>, i: nat)
    requires |random| == 7 && i < 10
    ensures InCode(RawCode(random)[i])
  {
    var g := Groups(BitsOf(random))[i];
    LetterIsTheAlphabet(g);
    assert Encode(random)[..10][i] == Letter(g);
  }

  /** Whatever was drawn, the code as shown normalises to its ten characters. */
  lemma ShownCodeNormalizes(random: seq<byte>)
    requires |random| == 7
    ensures |NormalizeRecoveryCode(ShownCode(random))| == 10
    ensures NormalizeRecoveryCode(ShownCode(random)) == RawCode(random)
  {
    var raw := RawCode(random);
    forall i | 0 <= i < 10 ensures InCode(raw[i]) {
      RawCodeInAlphabet(random, i);
    }
    NormalizeAppend(raw[..5] + ['-'], raw[5..]);
    NormalizeAppend(raw[..5], ['-']);
    NormalizeKeeps(raw[..5]);
    NormalizeKeeps(raw[5..]);
    assert NormalizeRecoveryCode(['-']) == [] by {
      assert ['-'][..0] == [];
    }
    assert raw[..5] + raw[5..] == raw;
  }

  /** The loop of `generateRecoveryCodes` over the bytes it draws. */
  method GenerateRecoveryCodes(random: seq<seq<byte>>) returns (codes: seq<seq<ascii>>)
    requires forall i :: 0 <= i < |random| ==> |random[i]| == 7
    ensures |codes| == |random|
    ensures forall i :: 0 <= i < |codes| ==> codes[i] == ShownCode(random[i])
  {
    codes := [];
    for i := 0 to |random|
      invariant |codes| == i
      invariant forall k :: 0 <= k < i ==> codes[k] == ShownCode(random[k])
    {
      var raw := ToLower(Encode(random[i])[..10]);
      codes := codes + [raw[..5] + ['-'] + raw[5..]];
    }
  }
}
