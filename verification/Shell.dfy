/**
 * Quoting for POSIX shells (src/http/views/upload.ts), read back by a model of the shell's own
 * word splitting: section 2.2.1 (Escape Character) and 2.2.2 (Single-Quotes) of the POSIX Shell
 * Command Language. Anything that would need an expansion or an operator is not a plain word.
 */
module Shell {
  import opened Common

  /** `value.replace(/'/g, "'\\''")`. */
  function Escape(s: string): string {
    if s == "" then ""
    else if s[0] == '\'' then "'\\''" + Escape(s[1..])
    else [s[0]] + Escape(s[1..])
  }

  function ShellQuote(s: string): string {
    "'" + Escape(s) + "'"
  }

  // ---- The reader -------------------------------------------------------------------------------------

  /** Between words; inside a word; inside single quotes of a word; after a backslash in a word. */
  datatype Mode = Between | Word(text: string) | Quoted(text: string) | Escaped(text: string)

  predicate Blank(c: char) {
    c == ' ' || c == '\t'
  }

  /** Characters that mean something to the shell when they stand unquoted. */
  predicate Special(c: char) {
    c in "|&;<>()$`\"*?[#~=%!{}\n"
  }

  datatype Reader = Reader(words: seq<string>, mode: Mode)

  function Text(m: Mode): string {
    match m
    case Between => ""
    case Word(t) => t
    case Quoted(t) => t
    case Escaped(t) => t
  }

  /** One character; None when the line is not a list of plain words. No word can hold a NUL. */
  function Read(r: Reader, c: char): Option<Reader> {
    if c == '\0' then None
    else if r.mode.Quoted? then
      if c == '\'' then Some(r.(mode := Word(r.mode.text))) else Some(r.(mode := Quoted(r.mode.text + [c])))
    else if r.mode.Escaped? then
      // an escaped newline is a line continuation
      Some(r.(mode := Word(if c == '\n' then r.mode.text else r.mode.text + [c])))
    else if c == '\'' then Some(r.(mode := Quoted(Text(r.mode))))
    else if c == '\\' then Some(r.(mode := Escaped(Text(r.mode))))
    else if Blank(c) then
      if r.mode.Word? then Some(Reader(r.words + [r.mode.text], Between)) else Some(r)
    else if Special(c) then None
    else Some(r.(mode := Word(Text(r.mode) + [c])))
  }

  function ReadAll(r: Reader, s: string): Option<Reader>
    decreases |s|
  {
    if s == "" then Some(r)
    else
      match Read(r, s[0])
      case None => None
      case Some(next) => ReadAll(next, s[1..])
  }

  /** The words of a line, if it ends outside quotes and escapes. */
  function Words(s: string): Option<seq<string>> {
    match ReadAll(Reader([], Between), s)
    case None => None
    case Some(r) =>
      match r.mode
      case Between => Some(r.words)
      case Word(t) => Some(r.words + [t])
      case _ => None
  }

  predicate NulFree(s: string) {
    forall i :: 0 <= i < |s| ==> s[i] != '\0'
  }

  // ---- What the reader makes of a quoted value --------------------------------------------------------

  lemma {:induction false} ReadAppend(r: Reader, a: string, b: string)
    ensures ReadAll(r, a + b) == match ReadAll(r, a) case None => None case Some(next) => ReadAll(next, b)
    decreases |a|
  {
    if a == "" {
      assert a + b == b;
    } else {
      assert (a + b)[0] == a[0] && (a + b)[1..] == a[1..] + b;
      if Read(r, a[0]).Some? {
        ReadAppend(Read(r, a[0]).value, a[1..], b);
      }
    }
  }

  lemma ReadEscapedQuote(words: seq<string>, t: string)
    ensures ReadAll(Reader(words, Quoted(t)), "'\\''") == Some(Reader(words, Quoted(t + ['\''])))
  {
    var q := "'\\''";
    assert q[1..] == "\\''" && q[1..][1..] == "''" && q[1..][1..][1..] == "'" && q[1..][1..][1..][1..] == "";
    var r0 := Reader(words, Quoted(t));
    var r1 := Reader(words, Word(t));
    var r2 := Reader(words, Escaped(t));
    var r3 := Reader(words, Word(t + ['\'']));
    assert ReadAll(r3, "'") == Some(Reader(words, Quoted(t + ['\'']))) by {
      assert "'"[1..] == "";
    }
    assert ReadAll(r2, "''") == ReadAll(r3, "'");
    assert ReadAll(r1, "\\''") == ReadAll(r2, "''");
  }

  lemma {:induction false} ReadEscape(words: seq<string>, t: string, s: string)
    ensures ReadAll(Reader(words, Quoted(t)), Escape(s))
            == if NulFree(s) then Some(Reader(words, Quoted(t + s))) else None
    decreases |s|
  {
    if s == "" {
      assert t + s == t;
    } else {
      assert NulFree(s) <==> s[0] != '\0' && NulFree(s[1..]);
      assert (t + [s[0]]) + s[1..] == t + s;
      if s[0] == '\'' {
        ReadEscapedQuote(words, t);
        ReadAppend(Reader(words, Quoted(t)), "'\\''", Escape(s[1..]));
        ReadEscape(words, t + ['\''], s[1..]);
      } else {
        var rest := Escape(s[1..]);
        assert ([s[0]] + rest)[0] == s[0] && ([s[0]] + rest)[1..] == rest;
        if s[0] != '\0' {
          ReadEscape(words, t + [s[0]], s[1..]);
        }
      }
    }
  }

  /** From between two words, a quoted value is read as one finished word, or not at all. */
  lemma ReadQuote(words: seq<string>, s: string)
    ensures ReadAll(Reader(words, Between), ShellQuote(s))
            == if NulFree(s) then Some(Reader(words, Word(s))) else None
  {
    var r := Reader(words, Between);
    var open := "'" + Escape(s);
    assert open[0] == '\'' && open[1..] == Escape(s);
    assert Read(r, '\'') == Some(Reader(words, Quoted("")));
    ReadEscape(words, "", s);
    assert "" + s == s;
    ReadAppend(r, open, "'");
    assert "'"[1..] == "";
  }

  /** A quoted value is exactly one word, equal to the value, if and only if the value has no NUL. */
  lemma QuoteIsOneWord(s: string)
    ensures Words(ShellQuote(s)) == Some([s]) <==> NulFree(s)
  {
    ReadQuote([], s);
    assert [] + [s] == [s];
  }

  lemma {:induction false} ReadKeepsWords(r: Reader, s: string)
    ensures match ReadAll(r, s)
            case None => ReadAll(Reader([], r.mode), s).None?
            case Some(last) =>
              && ReadAll(Reader([], r.mode), s).Some?
              && last == Reader(r.words + ReadAll(Reader([], r.mode), s).value.words,
                                ReadAll(Reader([], r.mode), s).value.mode)
    decreases |s|
  {
    var bare := Reader([], r.mode);
    if s != "" {
      var next, next' := Read(r, s[0]), Read(bare, s[0]);
      if next.Some? {
        ReadKeepsWords(next.value, s[1..]);
        ReadKeepsWords(next'.value, s[1..]);
        assert next.value.words == r.words + next'.value.words;
        if ReadAll(Reader([], next.value.mode), s[1..]).Some? {
          var w := ReadAll(Reader([], next.value.mode), s[1..]).value.words;
          assert (r.words + next'.value.words) + w == r.words + (next'.value.words + w);
        }
      }
    } else {
      assert r.words + [] == r.words;
    }
  }

  /** Between other words of a command line, the quoted value stands for itself and disturbs nothing. */
  lemma QuoteAmongWords(before: string, s: string, after: string)
    requires Words(before).Some? && Words(after).Some? && NulFree(s)
    ensures Words(before + " " + ShellQuote(s) + " " + after) == Some(Words(before).value + [s] + Words(after).value)
  {
    var start := Reader([], Between);
    var w := Words(before).value;
    ReadAppend(start, before, " ");
    assert " "[1..] == "";
    assert w + [] == w;
    assert ReadAll(start, before + " ") == Some(Reader(w, Between));
    ReadAppend(start, before + " ", ShellQuote(s));
    ReadQuote(w, s);
    ReadAppend(start, before + " " + ShellQuote(s), " ");
    assert ReadAll(start, before + " " + ShellQuote(s) + " ") == Some(Reader(w + [s], Between));
    ReadAppend(start, before + " " + ShellQuote(s) + " ", after);
    ReadKeepsWords(Reader(w + [s], Between), after);
    var tail := ReadAll(start, after).value;
    assert tail.mode.Word? ==> (w + [s]) + (tail.words + [tail.mode.text]) == ((w + [s]) + tail.words) + [tail.mode.text];
  }
}
