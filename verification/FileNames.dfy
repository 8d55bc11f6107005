/**
 * The names under which local storage keeps its entries (src/storage/local.ts, src/crypto.ts):
 * what the orphan sweep's pattern accepts, and why entries can be told apart by number.
 */
module FileNames {
  import opened Common
  import opened Storage
  import opened Interleaving
  import opened InterleavingRuns

  // ---- Regular expressions ----------------------------------------------------------------------------

  datatype Range = Range(lo: char, hi: char)

  datatype Regex =
    | Text(text: string)
    | OneOf(ranges: seq<Range>)
    | Then(first: Regex, second: Regex)
    | Times(body: Regex, n: nat)
    | Maybe(body: Regex)

  predicate InSome(c: char, ranges: seq<Range>) {
    exists r :: r in ranges && r.lo <= c <= r.hi
  }

  /** The whole of `s` is a word of the expression. */
  ghost predicate Matches(r: Regex, s: string)
    decreases r, 0
  {
    match r
    case Text(text) => s == text
    case OneOf(ranges) => |s| == 1 && InSome(s[0], ranges)
    case Then(first, second) => exists i :: 0 <= i <= |s| && Matches(first, s[..i]) && Matches(second, s[i..])
    case Times(body, n) => Repeats(body, n, s)
    case Maybe(body) => s == [] || Matches(body, s)
  }

  ghost predicate Repeats(body: Regex, n: nat, s: string)
    decreases body, n + 1
  {
    if n == 0 then s == []
    else exists i :: 0 <= i <= |s| && Matches(body, s[..i]) && Repeats(body, n - 1, s[i..])
  }

  /** `[A-Za-z0-9_-]` */
  const KEY_CLASS := [Range('A', 'Z'), Range('a', 'z'), Range('0', '9'), Range('_', '_'), Range('-', '-')]

  /** `^f_[A-Za-z0-9_-]{16}(\.json)?$` */
  const ARTEFACT_PATTERN := Then(Text("f_"), Then(Times(OneOf(KEY_CLASS), 16), Maybe(Text(".json"))))

  const SIDECAR := ".json"

  predicate KeyChar(c: char) {
    'A' <= c <= 'Z' || 'a' <= c <= 'z' || '0' <= c <= '9' || c == '_' || c == '-'
  }

  predicate KeyChars(s: string) {
    forall i :: 0 <= i < |s| ==> KeyChar(s[i])
  }

  predicate IsKey(s: string) {
    |s| == 18 && s[..2] == "f_" && KeyChars(s[2..])
  }

  /** A key, or a key with the ending of a sidecar. */
  predicate IsArtefactName(name: string) {
    IsKey(name) || (|name| == 23 && IsKey(name[..18]) && name[18..] == SIDECAR)
  }

  lemma ClassIsKeyChar(c: char)
    ensures InSome(c, KEY_CLASS) <==> KeyChar(c)
  {
    assert KEY_CLASS[0] == Range('A', 'Z') && KEY_CLASS[1] == Range('a', 'z') && KEY_CLASS[2] == Range('0', '9');
    assert KEY_CLASS[3] == Range('_', '_') && KEY_CLASS[4] == Range('-', '-');
  }

  lemma {:induction false} RepeatsIsKeyChars(n: nat, s: string)
    ensures Repeats(OneOf(KEY_CLASS), n, s) <==> |s| == n && KeyChars(s)
  {
    if n > 0 && s != [] {
      RepeatsIsKeyChars(n - 1, s[1..]);
      ClassIsKeyChar(s[0]);
      assert Matches(OneOf(KEY_CLASS), s[..1]) <==> KeyChar(s[0]);
      assert KeyChars(s) <==> KeyChar(s[0]) && KeyChars(s[1..]) by {
        assert forall i :: 0 < i < |s| ==> s[i] == s[1..][i - 1];
      }
    }
  }

  const KEY_TAIL := Times(OneOf(KEY_CLASS), 16)

  lemma HeadMatches(s: string)
    ensures Matches(KEY_TAIL, s) <==> |s| == 16 && KeyChars(s)
  {
    RepeatsIsKeyChars(16, s);
    assert Matches(KEY_TAIL, s) == Repeats(OneOf(KEY_CLASS), 16, s);
  }

  predicate SidecarOrNothing(s: string) {
    s == [] || s == SIDECAR
  }

  lemma TailMatches(s: string)
    ensures Matches(Then(KEY_TAIL, Maybe(Text(SIDECAR))), s)
            <==> |s| >= 16 && KeyChars(s[..16]) && SidecarOrNothing(s[16..])
  {
    forall i | 0 <= i <= |s|
      ensures Matches(KEY_TAIL, s[..i]) <==> i == 16 && KeyChars(s[..i])
      ensures Matches(Maybe(Text(SIDECAR)), s[i..]) <==> SidecarOrNothing(s[i..])
    {
      HeadMatches(s[..i]);
    }
    SplitMatches(s);
  }

  lemma SplitMatches(s: string)
    ensures Matches(Then(KEY_TAIL, Maybe(Text(SIDECAR))), s)
            <==> exists i :: 0 <= i <= |s| && Matches(KEY_TAIL, s[..i]) && Matches(Maybe(Text(SIDECAR)), s[i..])
  {
  }

  /** The sweep's pattern accepts a key, or a key followed by `.json`, and nothing else. */
  lemma PatternExact(name: string)
    ensures Matches(ARTEFACT_PATTERN, name) <==> IsArtefactName(name)
  {
    if |name| >= 2 {
      TailMatches(name[2..]);
      if |name| >= 18 {
        assert name[..18][2..] == name[2..][..16];
        assert name[2..][16..] == name[18..];
        assert name[..18][..2] == name[..2];
        if |name| == 18 {
          assert name[..18] == name;
        }
      }
    }
  }

  // ---- Keys as numbers --------------------------------------------------------------------------------

  /** The alphabet of section 5 of RFC 4648: A-Z, a-z, 0-9, then `-` and `_`. */
  function Sign(v: nat): char
    requires v < 64
  {
    if v < 26 then 'A' + v as char
    else if v < 52 then 'a' + (v - 26) as char
    else if v < 62 then '0' + (v - 52) as char
    else if v == 62 then '-' else '_'
  }

  function Digit(c: char): (v: nat)
    requires KeyChar(c)
    ensures v < 64
  {
    if 'A' <= c <= 'Z' then c as int - 'A' as int
    else if 'a' <= c <= 'z' then c as int - 'a' as int + 26
    else if '0' <= c <= '9' then c as int - '0' as int + 52
    else if c == '-' then 62 else 63
  }

  lemma DigitOfSign(v: nat)
    requires v < 64
    ensures KeyChar(Sign(v)) && Digit(Sign(v)) == v
  {
  }

  function Pow64(k: nat): (p: nat)
    ensures p > 0
  {
    if k == 0 then 1 else 64 * Pow64(k - 1)
  }

  function Written(v: nat, k: nat): (s: string)
    ensures |s| == k
  {
    if k == 0 then [] else Written(v / 64, k - 1) + [Sign(v % 64)]
  }

  function Number(s: string): (v: nat)
    requires KeyChars(s)
    ensures v < Pow64(|s|)
  {
    if s == [] then 0
    else
      var front := s[..|s| - 1];
      assert |s| - 1 == |front|;
      64 * Number(front) + Digit(s[|s| - 1])
  }

  lemma {:induction false} NumberOfWritten(v: nat, k: nat)
    requires v < Pow64(k)
    ensures KeyChars(Written(v, k)) && Number(Written(v, k)) == v
  {
    if k > 0 {
      NumberOfWritten(v / 64, k - 1);
      DigitOfSign(v % 64);
      assert Written(v, k)[..k - 1] == Written(v / 64, k - 1);
    }
  }

  lemma LastDigit(v: nat, d: nat)
    requires d < 64
    ensures (64 * v + d) / 64 == v && (64 * v + d) % 64 == d
  {
  }

  lemma {:induction false} WrittenOfNumber(s: string)
    requires KeyChars(s)
    ensures Written(Number(s), |s|) == s
  {
    if s != [] {
      var front := s[..|s| - 1];
      WrittenOfNumber(front);
      LastDigit(Number(front), Digit(s[|s| - 1]));
      assert |front| == |s| - 1;
    }
  }

  // ---- Entries by name --------------------------------------------------------------------------------

  function KeyOf(id: nat): (s: string)
    ensures |s| == 18
  {
    "f_" + Written(id, 16)
  }

  function NameOf(a: Artefact): string {
    match a
    case Data(id) => KeyOf(id)
    case Sidecar(id) => KeyOf(id) + SIDECAR
    case Other(name) => name
  }

  /** Ids that are keys, and files whose name is none of the application's. */
  predicate Nameable(a: Artefact) {
    match a
    case Data(id) => id < Pow64(16)
    case Sidecar(id) => id < Pow64(16)
    case Other(name) => !IsArtefactName(name)
  }

  function EntryOf(name: string): Artefact {
    if IsKey(name) then Data(Number(name[2..]))
    else if IsArtefactName(name) then Sidecar(Number(name[2..18]))
    else Other(name)
  }

  lemma KeyOfIsKey(id: nat)
    requires id < Pow64(16)
    ensures IsKey(KeyOf(id)) && Number(KeyOf(id)[2..]) == id
  {
    NumberOfWritten(id, 16);
    assert KeyOf(id)[2..] == Written(id, 16);
  }

  /** Different entries have different names, and each is found again under its name. */
  lemma EntryOfName(a: Artefact)
    requires Nameable(a)
    ensures EntryOf(NameOf(a)) == a
  {
    if !a.Other? {
      KeyOfIsKey(a.id);
      if a.Sidecar? {
        assert NameOf(a)[..18] == KeyOf(a.id);
        assert NameOf(a)[2..18] == KeyOf(a.id)[2..];
      }
    }
  }

  /** Every file name there can be is the name of exactly one entry. */
  lemma NameOfEntry(name: string)
    ensures Nameable(EntryOf(name)) && NameOf(EntryOf(name)) == name
  {
    if IsKey(name) {
      WrittenOfNumber(name[2..]);
      assert name == name[..2] + name[2..];
    } else if IsArtefactName(name) {
      assert name[..18][2..] == name[2..18];
      WrittenOfNumber(name[2..18]);
      assert name == name[..2] + name[2..18] + name[18..];
    }
  }

  // ---- The sweep, by name -----------------------------------------------------------------------------

  predicate EndsWith(s: string, ending: string) {
    |ending| <= |s| && s[|s| - |ending|..] == ending
  }

  /** The key the sweep looks up: the name without a trailing `.json`. */
  function KeyOfName(name: string): string {
    if EndsWith(name, SIDECAR) then name[..|name| - 5] else name
  }

  /** What the sweep's loop removes, as it is written: on names. */
  ghost predicate SweepsName(name: string, liveKeys: set<string>, mtime: int, cutoff: int) {
    Matches(ARTEFACT_PATTERN, name) && KeyOfName(name) !in liveKeys && mtime <= cutoff
  }

  lemma KeyOfNameIsKey(name: string)
    requires IsArtefactName(name)
    ensures !EntryOf(name).Other? && KeyOfName(name) == KeyOf(EntryOf(name).id) && EntryOf(name).id < Pow64(16)
  {
    NameOfEntry(name);
    if IsKey(name) {
      assert KeyChar(name[2..][11]);
    }
  }

  /**
   * On names the sweep removes what it removes on entries: an entry is an orphan exactly when
   * its name matches the pattern, its key is not live and it is old enough.
   */
  lemma SweepIsByName(store: Store, live: set<nat>, cutoff: int, name: string)
    requires EntryOf(name) in store
    requires forall id :: id in live ==> id < Pow64(16)
    ensures Orphan(store, live, cutoff, EntryOf(name))
            <==> SweepsName(name, set id | id in live :: KeyOf(id), store[EntryOf(name)].mtime, cutoff)
  {
    PatternExact(name);
    if IsArtefactName(name) {
      KeyOfNameIsKey(name);
      var id := EntryOf(name).id;
      forall x | x in live && KeyOf(x) == KeyOf(id) ensures x == id {
        KeyOfIsKey(x);
        KeyOfIsKey(id);
      }
    }
  }

  /** Files whose name the pattern does not match are never touched, by any step of any run. */
  lemma ForeignFilesAreLeftAlone(cfg: Config, ws: seq<World>, es: seq<Event>, i: nat, j: nat, name: string)
    requires Run(cfg, ws, es) && i <= j < |ws| && !Matches(ARTEFACT_PATTERN, name)
    ensures EntryOf(name) in ws[j].store <==> EntryOf(name) in ws[i].store
    ensures EntryOf(name) in ws[i].store ==> ws[j].store[EntryOf(name)] == ws[i].store[EntryOf(name)]
  {
    PatternExact(name);
    OthersAreLeftAlone(cfg, ws, es, i, j, name);
  }

  // ---- Drawn ids --------------------------------------------------------------------------------------

  /** Three bytes as four signs. */
  function Quad(a: byte, b: byte, c: byte): string {
    Written(65536 * a + 256 * b + c, 4)
  }

  /** base64url of `3 * k` bytes, which needs no padding. */
  function Base64Url(bytes: seq<byte>, k: nat): (s: string)
    requires |bytes| == 3 * k
    ensures |s| == 4 * k
  {
    if k == 0 then [] else Quad(bytes[0], bytes[1], bytes[2]) + Base64Url(bytes[3..], k - 1)
  }

  /** `newId('f')`, given the twelve random bytes. */
  function NewId(random: seq<byte>): string
    requires |random| == 12
  {
    "f_" + Base64Url(random, 4)
  }

  lemma QuadIsKeyChars(a: byte, b: byte, c: byte)
    ensures KeyChars(Quad(a, b, c)) && Number(Quad(a, b, c)) == 65536 * a + 256 * b + c
  {
    assert Pow64(4) == 0x100_0000;
    NumberOfWritten(65536 * a + 256 * b + c, 4);
  }

  lemma KeyCharsAppend(s: string, t: string)
    requires KeyChars(s) && KeyChars(t)
    ensures KeyChars(s + t)
  {
  }

  lemma {:induction false} Base64UrlIsKeyChars(bytes: seq<byte>, k: nat)
    requires |bytes| == 3 * k
    ensures KeyChars(Base64Url(bytes, k))
  {
    if k > 0 {
      QuadIsKeyChars(bytes[0], bytes[1], bytes[2]);
      Base64UrlIsKeyChars(bytes[3..], k - 1);
      KeyCharsAppend(Quad(bytes[0], bytes[1], bytes[2]), Base64Url(bytes[3..], k - 1));
    }
  }

  lemma QuadInjective(x: seq<byte>, y: seq<byte>)
    requires |x| >= 3 && |y| >= 3 && Quad(x[0], x[1], x[2]) == Quad(y[0], y[1], y[2])
    ensures x[..3] == y[..3]
  {
    QuadIsKeyChars(x[0], x[1], x[2]);
    QuadIsKeyChars(y[0], y[1], y[2]);
    assert x[0] == y[0] && x[1] == y[1] && x[2] == y[2];
  }

  lemma {:induction false} Base64UrlInjective(x: seq<byte>, y: seq<byte>, k: nat)
    requires |x| == |y| == 3 * k && Base64Url(x, k) == Base64Url(y, k)
    ensures x == y
  {
    if k > 0 {
      assert Base64Url(x, k)[..4] == Quad(x[0], x[1], x[2]) && Base64Url(x, k)[4..] == Base64Url(x[3..], k - 1);
      assert Base64Url(y, k)[..4] == Quad(y[0], y[1], y[2]) && Base64Url(y, k)[4..] == Base64Url(y[3..], k - 1);
      QuadInjective(x, y);
      Base64UrlInjective(x[3..], y[3..], k - 1);
      assert x == x[..3] + x[3..] && y == y[..3] + y[3..];
    }
  }

  /** Every id the server draws is a key its own sweep recognises, and different draws differ. */
  lemma DrawnIdsAreKeys(x: seq<byte>, y: seq<byte>)
    requires |x| == 12 && |y| == 12
    ensures IsKey(NewId(x)) && Matches(ARTEFACT_PATTERN, NewId(x)) && EntryOf(NewId(x)).Data?
    ensures NewId(x) == NewId(y) ==> x == y
  {
    Base64UrlIsKeyChars(x, 4);
    assert NewId(x)[2..] == Base64Url(x, 4) && NewId(y)[2..] == Base64Url(y, 4);
    PatternExact(NewId(x));
    if NewId(x) == NewId(y) {
      Base64UrlInjective(x, y, 4);
    }
  }
}
