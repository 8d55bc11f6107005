/**
 * Base32 without padding (src/totp.ts), against section 6 of RFC 4648: the bit string of the
 * input is cut into groups of five, the last one filled up with zeros.
 */
module Base32 {
  import opened Arithmetic
  import opened Common

  type bit = b: int | 0 <= b < 2
  type ascii = c: char | c as int < 128 witness 'A'

  // ---- Bit strings ------------------------------------------------------------------------------------

  function Pow2(k: nat): (p: nat)
    ensures p > 0
  {
    if k == 0 then 1 else 2 * Pow2(k - 1)
  }

  /** The `k` low bits of a number, most significant first. */
  function ToBits(v: nat, k: nat): (bs: seq<bit>)
    ensures |bs| == k
  {
    if k == 0 then [] else ToBits(v / 2, k - 1) + [v % 2]
  }

  function FromBits(bs: seq<bit>): (v: nat)
    ensures v < Pow2(|bs|)
  {
    if bs == [] then 0 else 2 * FromBits(bs[..|bs| - 1]) + bs[|bs| - 1]
  }

  lemma {:induction false} FromTo(v: nat, k: nat)
    requires v < Pow2(k)
    ensures FromBits(ToBits(v, k)) == v
  {
    if k > 0 {
      FromTo(v / 2, k - 1);
      assert ToBits(v, k)[..k - 1] == ToBits(v / 2, k - 1);
    }
  }

  lemma {:induction false} ToFrom(bs: seq<bit>)
    ensures ToBits(FromBits(bs), |bs|) == bs
  {
    if bs != [] {
      ToFrom(bs[..|bs| - 1]);
    }
  }

  lemma FromLast(a: seq<bit>, b: seq<bit>)
    requires b != []
    ensures FromBits(a + b) == 2 * FromBits(a + b[..|b| - 1]) + b[|b| - 1]
  {
    assert (a + b)[..|a + b| - 1] == a + b[..|b| - 1];
  }

  lemma {:induction false} FromConcat(a: seq<bit>, b: seq<bit>)
    ensures FromBits(a + b) == FromBits(a) * Pow2(|b|) + FromBits(b)
    decreases |b|
  {
    if b == [] {
      assert a + b == a;
    } else {
      var front := b[..|b| - 1];
      FromConcat(a, front);
      FromLast(a, b);
      Double(FromBits(a), Pow2(|front|));
    }
  }

  lemma Double(x: nat, y: nat)
    ensures x * (2 * y) == 2 * (x * y)
  {
  }

  function Zeros(k: nat): (bs: seq<bit>)
    ensures |bs| == k
  {
    seq(k, _ => 0)
  }

  // ---- The specification ------------------------------------------------------------------------------

  const ALPHABET := "ABCDEFGHIJKLMNOPQRSTUVWXYZ234567"

  function Letter(v: nat): ascii
    requires v < 32
  {
    if v < 26 then 'A' + v as char else '2' + (v - 26) as char
  }

  function Index(c: ascii): (r: Option<nat>)
    ensures r.Some? ==> r.value < 32
  {
    if 'A' <= c <= 'Z' then Some(c as int - 'A' as int)
    else if '2' <= c <= '7' then Some(c as int - '2' as int + 26)
    else None
  }

  lemma LetterIsTheAlphabet(v: nat)
    requires v < 32
    ensures ALPHABET[v] == Letter(v) && Index(Letter(v)) == Some(v)
  {
  }

  lemma IndexIsThePlace(c: ascii)
    ensures Index(c).Some? ==> Letter(Index(c).value) == c
  {
  }

  function BitsOf(buf: seq<byte>): (bs: seq<bit>)
    ensures |bs| == 8 * |buf|
  {
    if buf == [] then [] else BitsOf(buf[..|buf| - 1]) + ToBits(buf[|buf| - 1], 8)
  }

  /** Groups of five bits as numbers, the last one padded with zeros on the right. */
  function Groups(bs: seq<bit>): (gs: seq<nat>)
    ensures |gs| == (|bs| + 4) / 5
    ensures forall i :: 0 <= i < |gs| ==> gs[i] < 32
  {
    if bs == [] then []
    else if |bs| < 5 then
      assert Pow2(5) == 32;
      [FromBits(bs + Zeros(5 - |bs|))]
    else
      assert Pow2(5) == 32;
      [FromBits(bs[..5])] + Groups(bs[5..])
  }

  function Letters(gs: seq<nat>): (s: seq<ascii>)
    requires forall i :: 0 <= i < |gs| ==> gs[i] < 32
    ensures |s| == |gs|
  {
    seq(|gs|, i requires 0 <= i < |gs| => Letter(gs[i]))
  }

  function Encode(buf: seq<byte>): (s: seq<ascii>)
    ensures |s| == (8 * |buf| + 4) / 5
  {
    Letters(Groups(BitsOf(buf)))
  }

  function Upper(c: ascii): ascii {
    if 'a' <= c <= 'z' then c - 32 as char else c
  }

  /** What decoding strips: '=', '-' and ASCII white space. */
  predicate Separator(c: ascii) {
    c == '=' || c == '-' || c == ' ' || 9 <= c as int <= 13
  }

  function Clean(s: seq<ascii>): seq<ascii> {
    if s == [] then []
    else
      var c := Upper(s[|s| - 1]);
      if Separator(c) then Clean(s[..|s| - 1]) else Clean(s[..|s| - 1]) + [c]
  }

  predicate AllDigits(s: seq<ascii>) {
    forall i :: 0 <= i < |s| ==> Index(s[i]).Some?
  }

  function DigitBits(s: seq<ascii>): (bs: seq<bit>)
    requires AllDigits(s)
    ensures |bs| == 5 * |s|
  {
    if s == [] then [] else DigitBits(s[..|s| - 1]) + ToBits(Index(s[|s| - 1]).value, 5)
  }

  /** Groups of eight bits as bytes; what is left over is dropped. */
  function Bytes(bs: seq<bit>): (buf: seq<byte>)
    ensures |buf| == |bs| / 8
  {
    if |bs| < 8 then []
    else
      assert Pow2(8) == 256;
      [FromBits(bs[..8])] + Bytes(bs[8..])
  }

  datatype InvalidBase32 = InvalidBase32

  function Decode(s: seq<ascii>): Result<seq<byte>, InvalidBase32> {
    if AllDigits(Clean(s)) then Ok(Bytes(DigitBits(Clean(s)))) else Err(InvalidBase32)
  }

  // ---- Round trip -------------------------------------------------------------------------------------

  lemma {:induction false} GroupsAppend(a: seq<bit>, b: seq<bit>)
    requires |a| % 5 == 0
    ensures Groups(a + b) == Groups(a) + Groups(b)
    decreases |a|
  {
    if a == [] {
      assert a + b == b;
    } else {
      GroupsAppend(a[5..], b);
      assert (a + b)[..5] == a[..5] && (a + b)[5..] == a[5..] + b;
    }
  }

  lemma FirstByte(a: seq<bit>, b: seq<bit>)
    requires |a| >= 8
    ensures FromBits(a[..8]) < 256 && Bytes(a + b) == [FromBits(a[..8])] + Bytes(a[8..] + b)
  {
    assert Pow2(8) == 256;
    assert (a + b)[..8] == a[..8] && (a + b)[8..] == a[8..] + b;
  }

  lemma {:induction false} BytesAppend(a: seq<bit>, b: seq<bit>)
    requires |a| % 8 == 0
    ensures Bytes(a + b) == Bytes(a) + Bytes(b)
    decreases |a|
  {
    if a == [] {
      assert a + b == b;
    } else {
      BytesAppend(a[8..], b);
      FirstByte(a, b);
      FirstByte(a, []);
      assert a + [] == a && a[8..] + [] == a[8..];
    }
  }

  lemma {:induction false} BytesOfBits(buf: seq<byte>, rest: seq<bit>)
    requires |rest| < 8
    ensures Bytes(BitsOf(buf) + rest) == buf
  {
    BytesAppend(BitsOf(buf), rest);
    if buf != [] {
      var last := ToBits(buf[|buf| - 1], 8);
      BytesOfBits(buf[..|buf| - 1], []);
      assert BitsOf(buf[..|buf| - 1]) + [] == BitsOf(buf[..|buf| - 1]);
      BytesAppend(BitsOf(buf[..|buf| - 1]), last);
      OneByte(buf[|buf| - 1]);
    }
  }

  lemma OneByte(b: byte)
    ensures Bytes(ToBits(b, 8)) == [b]
  {
    var last := ToBits(b, 8);
    assert Pow2(8) == 256;
    FromTo(b, 8);
    assert last[..8] == last && last[8..] == [];
  }

  /** Padding that completes the last group of five. */
  function Padding(n: nat): nat {
    (5 - n % 5) % 5
  }

  lemma {:induction false} DigitsAppend(s: seq<ascii>, t: seq<ascii>)
    requires AllDigits(s) && AllDigits(t)
    ensures AllDigits(s + t) && DigitBits(s + t) == DigitBits(s) + DigitBits(t)
    decreases |t|
  {
    if t == [] {
      assert s + t == s;
    } else {
      var front := t[..|t| - 1];
      DigitsAppend(s, front);
      assert (s + t)[..|s + t| - 1] == s + front;
      Reassociate(DigitBits(s), DigitBits(front), ToBits(Index(t[|t| - 1]).value, 5));
    }
  }

  lemma OneDigit(bs: seq<bit>)
    requires |bs| == 5
    ensures FromBits(bs) < 32
    ensures AllDigits([Letter(FromBits(bs))]) && DigitBits([Letter(FromBits(bs))]) == bs
  {
    assert Pow2(5) == 32;
    LetterIsTheAlphabet(FromBits(bs));
    ToFrom(bs);
    var one := [Letter(FromBits(bs))];
    assert one[..0] == [];
  }

  /** Reading the letters back gives the bit string and its padding. */
  lemma {:induction false} DigitsOfGroups(bs: seq<bit>)
    ensures AllDigits(Letters(Groups(bs)))
    ensures DigitBits(Letters(Groups(bs))) == bs + Zeros(Padding(|bs|))
    decreases |bs|
  {
    if bs == [] {
    } else if |bs| < 5 {
      OneGroup(bs);
      ShortPadding(|bs|);
      ReadBack(bs + Zeros(5 - |bs|), Letters(Groups(bs)));
    } else {
      DigitsOfGroups(bs[5..]);
      FirstDigit(bs);
    }
  }

  lemma ReadBack(padded: seq<bit>, s: seq<ascii>)
    requires |padded| == 5 && FromBits(padded) < 32 && s == [Letter(FromBits(padded))]
    ensures AllDigits(s) && DigitBits(s) == padded
  {
    OneDigit(padded);
  }

  lemma OneGroup(bs: seq<bit>)
    requires 0 < |bs| < 5
    ensures FromBits(bs + Zeros(5 - |bs|)) < 32
    ensures Letters(Groups(bs)) == [Letter(FromBits(bs + Zeros(5 - |bs|)))]
  {
    assert Pow2(5) == 32;
  }

  lemma ShortPadding(n: nat)
    requires 0 < n < 5
    ensures Padding(n) == 5 - n
  {
  }

  lemma FirstDigit(bs: seq<bit>)
    requires |bs| >= 5
    requires AllDigits(Letters(Groups(bs[5..])))
    requires DigitBits(Letters(Groups(bs[5..]))) == bs[5..] + Zeros(Padding(|bs[5..]|))
    ensures AllDigits(Letters(Groups(bs)))
    ensures DigitBits(Letters(Groups(bs))) == bs + Zeros(Padding(|bs|))
  {
    var head, tail, pad := bs[..5], bs[5..], Padding(|bs|);
    PaddingRepeats(|bs|);
    OneDigit(head);
    LettersAppend([FromBits(head)], Groups(tail));
    DigitsAppend([Letter(FromBits(head))], Letters(Groups(tail)));
    SplitPadded(bs, Zeros(pad));
  }

  lemma PaddingRepeats(n: nat)
    requires n >= 5
    ensures Padding(n - 5) == Padding(n)
  {
  }

  lemma SplitPadded(bs: seq<bit>, zeros: seq<bit>)
    requires |bs| >= 5
    ensures bs[..5] + (bs[5..] + zeros) == bs + zeros
  {
  }

  lemma LettersAppend(a: seq<nat>, b: seq<nat>)
    requires forall i :: 0 <= i < |a| ==> a[i] < 32
    requires forall i :: 0 <= i < |b| ==> b[i] < 32
    ensures forall i :: 0 <= i < |a + b| ==> (a + b)[i] < 32
    ensures Letters(a + b) == Letters(a) + Letters(b)
    ensures |a| == 1 ==> Letters(a) == [Letter(a[0])]
  {
  }

  lemma {:induction false} CleanKeepsLetters(s: seq<ascii>)
    requires AllDigits(s)
    ensures Clean(s) == s
  {
    if s != [] {
      CleanKeepsLetters(s[..|s| - 1]);
      assert Index(s[|s| - 1]).Some?;
    }
  }

  /** Every byte string survives encoding and decoding. */
  lemma DecodeEncode(buf: seq<byte>)
    ensures Decode(Encode(buf)) == Ok(buf)
  {
    var bs := BitsOf(buf);
    DigitsOfGroups(bs);
    CleanKeepsLetters(Encode(buf));
    BytesOfBits(buf, Zeros(Padding(|bs|)));
  }

  /** Decoding yields floor(5m/8) bytes for m characters that count, and refuses any other character. */
  lemma DecodeShape(s: seq<ascii>)
    ensures Decode(s).Ok? <==> AllDigits(Clean(s))
    ensures Decode(s).Ok? ==> |Decode(s).value| == 5 * |Clean(s)| / 8
  {
  }

  /** `t` is `s` in any mixture of cases and with any separators put in. */
  predicate Rewrites(s: seq<ascii>, t: seq<ascii>)
    decreases |t|
  {
    if t == [] then s == []
    else
      || (Separator(t[|t| - 1]) && Rewrites(s, t[..|t| - 1]))
      || (s != [] && Upper(s[|s| - 1]) == Upper(t[|t| - 1]) && Rewrites(s[..|s| - 1], t[..|t| - 1]))
  }

  lemma {:induction false} RewritingIsClean(s: seq<ascii>, t: seq<ascii>)
    requires Rewrites(s, t)
    ensures Clean(s) == Clean(t)
    decreases |t|
  {
    if t != [] {
      if Separator(t[|t| - 1]) && Rewrites(s, t[..|t| - 1]) {
        RewritingIsClean(s, t[..|t| - 1]);
      } else {
        RewritingIsClean(s[..|s| - 1], t[..|t| - 1]);
      }
    }
  }

  /** However an encoded value is copied - lower case, grouped, padded - it decodes to the same bytes. */
  lemma DecodeAnyWriting(buf: seq<byte>, t: seq<ascii>)
    requires Rewrites(Encode(buf), t)
    ensures Decode(t) == Ok(buf)
  {
    DecodeEncode(buf);
    RewritingIsClean(Encode(buf), t);
  }

  // ---- The loops of src/totp.ts -----------------------------------------------------------------------

  /** JavaScript's 32-bit `<<`; the bit pattern is kept as an unsigned number. */
  function Shl(v: nat, k: nat): nat {
    v * Pow2(k) % 0x1_0000_0000
  }

  /** JavaScript's `>>>`. */
  function Shr(v: nat, k: nat): nat {
    Natural(v, Pow2(k));
    v / Pow2(k)
  }

  /** The accumulator: it wraps at 32 bits, and its `bits` low bits are the bits still to be written. */
  predicate Holds(value: nat, bits: nat, pending: seq<bit>) {
    bits == |pending| <= 12 && value % Pow2(bits) == FromBits(pending)
  }

  lemma Pow2Table()
    ensures Pow2(0) == 1 && Pow2(1) == 2 && Pow2(2) == 4 && Pow2(3) == 8 && Pow2(4) == 16 && Pow2(5) == 32
    ensures Pow2(6) == 64 && Pow2(7) == 128 && Pow2(8) == 256 && Pow2(9) == 512 && Pow2(10) == 1024
    ensures Pow2(11) == 2048 && Pow2(12) == 4096 && Pow2(32) == 0x1_0000_0000
  {
    assert Pow2(20) == 0x10_0000;
  }

  lemma WrapKeepsLowBits(value: nat, k: nat, d: nat, bits: nat)
    requires bits + k <= 12 && d < Pow2(k)
    ensures (Shl(value, k) + d) % Pow2(bits + k) == value % Pow2(bits) * Pow2(k) + d
  {
    PowSum(bits, k);
    PowSum(bits + k, 32 - bits - k);
    Pow2Table();
    WrapKeepsLowDigits(value, d, Pow2(bits), Pow2(k), Pow2(32 - bits - k));
  }

  lemma Push(value: nat, bits: nat, pending: seq<bit>, k: nat, d: nat)
    requires Holds(value, bits, pending) && bits + k <= 12 && d < Pow2(k)
    ensures Holds(Shl(value, k) + d, bits + k, pending + ToBits(d, k))
  {
    WrapKeepsLowBits(value, k, d, bits);
    FromTo(d, k);
    FromConcat(pending, ToBits(d, k));
  }

  /** The top `k` pending bits are what `(value >>> (bits - k))` shows in its low bits. */
  lemma Pop(value: nat, bits: nat, pending: seq<bit>, k: nat)
    requires Holds(value, bits, pending) && k <= bits
    ensures Shr(value, bits - k) % Pow2(k) == FromBits(pending[..k])
    ensures Holds(value, bits - k, pending[k..])
  {
    var top, rest := pending[..k], pending[k..];
    assert top + rest == pending && |rest| == bits - k;
    FromConcat(top, rest);
    CutBits(value, bits, k, FromBits(top), FromBits(rest));
  }

  lemma CutBits(value: nat, bits: nat, k: nat, high: nat, low: nat)
    requires k <= bits && low < Pow2(bits - k)
    requires value % Pow2(bits) == high * Pow2(bits - k) + low
    ensures Shr(value, bits - k) % Pow2(k) == high && value % Pow2(bits - k) == low
  {
    PowSum(k, bits - k);
    TopDigit(value, Pow2(bits), Pow2(k), Pow2(bits - k), high, low);
  }

  lemma {:induction false} PowSum(a: nat, b: nat)
    ensures Pow2(a + b) == Pow2(a) * Pow2(b)
  {
    if a > 0 {
      PowSum(a - 1, b);
    }
  }

  /** The loop of `base32Encode`: `done` has been written out, `pending` is in the accumulator. */
  predicate Encoding(out: seq<ascii>, value: nat, bits: nat, done: seq<bit>, pending: seq<bit>, all: seq<bit>) {
    done + pending == all && |done| % 5 == 0 && out == Letters(Groups(done)) && Holds(value, bits, pending)
  }

  lemma EncodeByte(out: seq<ascii>, value: nat, bits: nat, done: seq<bit>, pending: seq<bit>, buf: seq<byte>, n: nat)
    requires n < |buf| && Encoding(out, value, bits, done, pending, BitsOf(buf[..n])) && bits < 5
    ensures Encoding(out, Shl(value, 8) + buf[n], bits + 8, done, pending + ToBits(buf[n], 8), BitsOf(buf[..n + 1]))
  {
    assert Pow2(8) == 256;
    Push(value, bits, pending, 8, buf[n]);
    assert buf[..n + 1][..n] == buf[..n];
    assert (done + pending) + ToBits(buf[n], 8) == done + (pending + ToBits(buf[n], 8));
  }

  lemma EncodeLetter(out: seq<ascii>, value: nat, bits: nat, done: seq<bit>, pending: seq<bit>, all: seq<bit>)
    requires Encoding(out, value, bits, done, pending, all) && bits >= 5
    ensures Encoding(out + [Letter(Shr(value, bits - 5) % 32)], value, bits - 5, done + pending[..5], pending[5..], all)
  {
    Pop(value, bits, pending, 5);
    assert Pow2(5) == 32;
    var five := pending[..5];
    GroupsAppend(done, five);
    OneGroupOfFive(five);
    assert done + pending == (done + five) + pending[5..];
  }

  lemma OneGroupOfFive(five: seq<bit>)
    requires |five| == 5
    ensures Groups(five) == [FromBits(five)]
  {
    assert five[..5] == five && five[5..] == [];
  }

  lemma EncodeRest(out: seq<ascii>, value: nat, bits: nat, done: seq<bit>, pending: seq<bit>, buf: seq<byte>)
    requires Encoding(out, value, bits, done, pending, BitsOf(buf)) && bits < 5
    ensures Encode(buf) == if bits > 0 then out + [Letter(Shl(value, 5 - bits) % 32)] else out
  {
    GroupsAppend(done, pending);
    if bits > 0 {
      LastGroup(value, bits, pending);
    }
  }

  method Base32Encode(buf: seq<byte>) returns (out: seq<ascii>)
    ensures out == Encode(buf)
  {
    var bits: nat, value: nat := 0, 0;
    out := [];
    ghost var done: seq<bit>, pending: seq<bit> := [], [];
    for n := 0 to |buf|
      invariant bits < 5 && Encoding(out, value, bits, done, pending, BitsOf(buf[..n]))
    {
      EncodeByte(out, value, bits, done, pending, buf, n);
      value := Shl(value, 8) + buf[n];
      bits := bits + 8;
      pending := pending + ToBits(buf[n], 8);
      while bits >= 5
        invariant Encoding(out, value, bits, done, pending, BitsOf(buf[..n + 1]))
      {
        EncodeLetter(out, value, bits, done, pending, BitsOf(buf[..n + 1]));
        out := out + [Letter(Shr(value, bits - 5) % 32)];
        bits := bits - 5;
        done, pending := done + pending[..5], pending[5..];
      }
    }
    assert buf[..|buf|] == buf;
    EncodeRest(out, value, bits, done, pending, buf);
    if bits > 0 {
      out := out + [Letter(Shl(value, 5 - bits) % 32)];
    }
  }

  lemma LastGroup(value: nat, bits: nat, pending: seq<bit>)
    requires Holds(value, bits, pending) && 0 < bits < 5
    ensures Groups(pending) == [Shl(value, 5 - bits) % 32]
  {
    FromConcat(pending, Zeros(5 - bits));
    ZerosAreZero(5 - bits);
    Pow2Table();
    WrapKeepsLowBits(value, 5 - bits, 0, bits);
  }

  lemma {:induction false} ZerosAreZero(k: nat)
    ensures FromBits(Zeros(k)) == 0
  {
    if k > 0 {
      ZerosAreZero(k - 1);
      assert Zeros(k)[..k - 1] == Zeros(k - 1);
    }
  }

  method CleanUp(s: seq<ascii>) returns (clean: seq<ascii>)
    ensures clean == Clean(s)
  {
    clean := [];
    for n := 0 to |s|
      invariant clean == Clean(s[..n])
    {
      assert s[..n + 1][..n] == s[..n];
      if !Separator(Upper(s[n])) {
        clean := clean + [Upper(s[n])];
      }
    }
    assert s[..|s|] == s;
  }

  /** The loop of `base32Decode`. */
  predicate Decoding(out: seq<byte>, value: nat, bits: nat, done: seq<bit>, pending: seq<bit>, all: seq<bit>) {
    done + pending == all && |done| % 8 == 0 && out == Bytes(done) && Holds(value, bits, pending)
  }

  lemma DecodeLetter(out: seq<byte>, value: nat, bits: nat, done: seq<bit>, pending: seq<bit>, s: seq<ascii>, n: nat)
    requires n < |s| && AllDigits(s[..n]) && Index(s[n]).Some?
    requires Decoding(out, value, bits, done, pending, DigitBits(s[..n])) && bits < 8
    ensures AllDigits(s[..n + 1])
    ensures var idx := Index(s[n]).value;
            Decoding(out, Shl(value, 5) + idx, bits + 5, done, pending + ToBits(idx, 5), DigitBits(s[..n + 1]))
  {
    var idx := Index(s[n]).value;
    assert Pow2(5) == 32;
    Push(value, bits, pending, 5, idx);
    NextDigit(s, n);
    Reassociate(done, pending, ToBits(idx, 5));
  }

  lemma NextDigit(s: seq<ascii>, n: nat)
    requires n < |s| && AllDigits(s[..n]) && Index(s[n]).Some?
    ensures AllDigits(s[..n + 1])
    ensures DigitBits(s[..n + 1]) == DigitBits(s[..n]) + ToBits(Index(s[n]).value, 5)
  {
    assert s[..n + 1][..n] == s[..n];
  }

  lemma Reassociate(a: seq<bit>, b: seq<bit>, c: seq<bit>)
    ensures (a + b) + c == a + (b + c)
  {
  }

  lemma DecodeByte(out: seq<byte>, value: nat, bits: nat, done: seq<bit>, pending: seq<bit>, all: seq<bit>)
    requires Decoding(out, value, bits, done, pending, all) && bits >= 8
    ensures Decoding(out + [Shr(value, bits - 8) % 256], value, bits - 8, done + pending[..8], pending[8..], all)
  {
    Pop(value, bits, pending, 8);
    assert Pow2(8) == 256;
    var eight := pending[..8];
    BytesAppend(done, eight);
    assert eight[..8] == eight && eight[8..] == [];
    assert Bytes(eight) == [FromBits(eight)];
    assert done + pending == (done + eight) + pending[8..];
  }

  lemma DecodeRest(out: seq<byte>, value: nat, bits: nat, done: seq<bit>, pending: seq<bit>, s: seq<ascii>)
    requires AllDigits(s) && Decoding(out, value, bits, done, pending, DigitBits(s)) && bits < 8
    ensures Bytes(DigitBits(s)) == out
  {
    BytesAppend(done, pending);
  }

  method Base32Decode(s: seq<ascii>) returns (r: Result<seq<byte>, InvalidBase32>)
    ensures r == Decode(s)
  {
    var clean := CleanUp(s);
    r := DecodeDigits(clean);
  }

  /** The loop over the cleaned input. */
  method DecodeDigits(clean: seq<ascii>) returns (r: Result<seq<byte>, InvalidBase32>)
    ensures r == if AllDigits(clean) then Ok(Bytes(DigitBits(clean))) else Err(InvalidBase32)
  {
    var bits: nat, value: nat := 0, 0;
    var out: seq<byte> := [];
    ghost var done: seq<bit>, pending: seq<bit> := [], [];
    for n := 0 to |clean|
      invariant AllDigits(clean[..n])
      invariant bits < 8 && Decoding(out, value, bits, done, pending, DigitBits(clean[..n]))
    {
      var idx := Index(clean[n]);
      if idx.None? {
        assert !AllDigits(clean);
        return Err(InvalidBase32);
      }
      DecodeLetter(out, value, bits, done, pending, clean, n);
      value := Shl(value, 5) + idx.value;
      bits := bits + 5;
      pending := pending + ToBits(idx.value, 5);
      if bits >= 8 {
        DecodeByte(out, value, bits, done, pending, DigitBits(clean[..n + 1]));
        out := out + [Shr(value, bits - 8) % 256];
        bits := bits - 8;
        done, pending := done + pending[..8], pending[8..];
      }
    }
    assert clean[..|clean|] == clean;
    DecodeRest(out, value, bits, done, pending, clean);
    return Ok(out);
  }
}
