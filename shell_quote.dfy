/**
 * Python's `shlex.quote`, which renders every argument that is not masked in a displayed
 * command line, and a model of how `shlex.split` (POSIX mode) reads back the quoting forms
 * `shlex.quote` produces. The reader exists to state what quoting promises: a displayed
 * command splits back into exactly the words that were displayed.
 */
module ShellQuote {

  import opened Wrappers

  /** The characters `shlex.quote` leaves unquoted: ASCII letters, digits, `_` and `@%+=:,./-`. */
  predicate IsSafe(c: char) {
    || ('a' <= c <= 'z') || ('A' <= c <= 'Z') || ('0' <= c <= '9')
    || c == '_' || c == '@' || c == '%' || c == '+' || c == '='
    || c == ':' || c == ',' || c == '.' || c == '/' || c == '-'
  }

  predicate AllSafe(s: string) {
    forall i :: 0 <= i < |s| ==> IsSafe(s[i])
  }

  /** `s.replace("'", "'\"'\"'")`: every single quote closes the quoted span, is written
      inside double quotes, and reopens the span. */
  function EscapeSingleQuotes(s: string): (r: string)
    ensures |r| >= |s|
  {
    if s == [] then []
    else EscapeChar(s[0]) + EscapeSingleQuotes(s[1..])
  }

  /** One character of the escaped text. */
  function EscapeChar(c: char): string
  {
    if c == '\'' then "'\"'\"'" else [c]
  }

  /** `shlex.quote(s)`: a non-empty string of safe characters is left as it is; anything else
      is wrapped in single quotes. */
  function Quote(s: string): (r: string)
    ensures r == s <==> s != [] && AllSafe(s)
    ensures r != s ==> |r| >= 2 && r[0] == '\'' && r[|r| - 1] == '\''
  {
    if s == [] then "''"
    else if AllSafe(s) then s
    else "'" + EscapeSingleQuotes(s) + "'"
  }

  // ---------------------------------------------------------------------------------------
  // Reading words back, as `shlex.split` does in POSIX mode.

  predicate IsSpace(c: char) { c == ' ' || c == '\t' || c == '\n' || c == '\r' }

  /** Characters that stand for themselves outside quotes. */
  predicate IsPlain(c: char) { !IsSpace(c) && c != '\'' && c != '"' && c != '\\' }

  /** Where the reader is inside a word: outside quotes, or inside single or double quotes. */
  datatype Mode = Bare | InSingle | InDouble

  /** A word with its quoting removed, and how many characters of the line it spans. */
  datatype Word = Word(text: string, length: nat)

  /** One more character of the line belongs to the word's text. */
  function Keep(c: char, rest: Option<Word>): Option<Word>
  {
    match rest
    case None => None
    case Some(w) => Some(Word([c] + w.text, w.length + 1))
  }

  /** One more character of the line is a quote: it is spanned but not part of the text. */
  function Skip(rest: Option<Word>): Option<Word>
  {
    match rest
    case None => None
    case Some(w) => Some(Word(w.text, w.length + 1))
  }

  /**
   * Reads the rest of a word from the start of `s` in the given mode, up to the first
   * whitespace outside quotes or the end of the line. `None` for an unterminated quote or a
   * backslash, an escape form `shlex.quote` never produces.
   */
  function ReadWord(s: string, mode: Mode): (r: Option<Word>)
    ensures r.Some? ==> r.value.length <= |s|
    decreases |s|
  {
    if s == [] then (if mode == Bare then Some(Word([], 0)) else None)
    else
      var c := s[0];
      match mode
      case Bare =>
        if IsSpace(c) then Some(Word([], 0))
        else if c == '\'' then Skip(ReadWord(s[1..], InSingle))
        else if c == '"' then Skip(ReadWord(s[1..], InDouble))
        else if c == '\\' then None
        else Keep(c, ReadWord(s[1..], Bare))
      case InSingle =>
        if c == '\'' then Skip(ReadWord(s[1..], Bare))
        else Keep(c, ReadWord(s[1..], InSingle))
      case InDouble =>
        if c == '"' then Skip(ReadWord(s[1..], Bare))
        else if c == '\\' then None
        else Keep(c, ReadWord(s[1..], InDouble))
  }

  /** Splits a command line into words, skipping whitespace between them. */
  function Split(s: string): Option<seq<string>>
    decreases |s|
  {
    if s == [] then Some([])
    else if IsSpace(s[0]) then Split(s[1..])
    else match ReadWord(s, Bare)
      case None => None
      case Some(w) =>
        if w.length == 0 then None
        else match Split(s[w.length..])
          case None => None
          case Some(ws) => Some([w.text] + ws)
  }

  /** `' '.join(words)`. */
  function JoinSpaces(words: seq<string>): string
  {
    if words == [] then []
    else if |words| == 1 then words[0]
    else words[0] + " " + JoinSpaces(words[1..])
  }

  // ---------------------------------------------------------------------------------------
  // What quoting promises.

  predicate EndsWord(t: string) { t == [] || IsSpace(t[0]) }

  lemma EndsWordReads(t: string)
    requires EndsWord(t)
    ensures ReadWord(t, Bare) == Some(Word([], 0))
  {
  }

  /** Unquoted plain characters are copied into the word. */
  lemma {:induction false} PlainReads(w: string, t: string)
    requires forall i :: 0 <= i < |w| ==> IsPlain(w[i])
    requires ReadWord(t, Bare).Some?
    ensures ReadWord(w + t, Bare)
         == Some(Word(w + ReadWord(t, Bare).value.text, |w| + ReadWord(t, Bare).value.length))
    decreases |w|
  {
    if w != [] {
      assert (w + t)[0] == w[0];
      assert (w + t)[1..] == w[1..] + t;
      PlainReads(w[1..], t);
      assert [w[0]] + (w[1..] + ReadWord(t, Bare).value.text) == w + ReadWord(t, Bare).value.text;
    } else {
      assert w + t == t;
      assert w + ReadWord(t, Bare).value.text == ReadWord(t, Bare).value.text;
    }
  }

  /** Inside single quotes, the escaped text of `x` and the closing quote read back as `x`. */
  lemma {:induction false} EscapedReads(x: string, t: string)
    requires ReadWord(t, Bare).Some?
    ensures ReadWord(EscapeSingleQuotes(x) + "'" + t, InSingle)
         == Some(Word(x + ReadWord(t, Bare).value.text,
                      |EscapeSingleQuotes(x)| + 1 + ReadWord(t, Bare).value.length))
    decreases |x|
  {
    if x == [] {
      ClosingQuoteReads(t);
    } else {
      EscapedReads(x[1..], t);
      EscapedStep(x, t);
    }
  }

  /** The closing quote ends the quoted span and the word continues bare. */
  lemma ClosingQuoteReads(t: string)
    requires ReadWord(t, Bare).Some?
    ensures ReadWord(EscapeSingleQuotes([]) + "'" + t, InSingle)
         == Some(Word([] + ReadWord(t, Bare).value.text, |EscapeSingleQuotes([])| + 1 + ReadWord(t, Bare).value.length))
  {
    assert EscapeSingleQuotes([]) + "'" + t == ['\''] + t;
    assert (['\''] + t)[1..] == t;
    assert [] + ReadWord(t, Bare).value.text == ReadWord(t, Bare).value.text;
  }

  /** One escaped character in front of the rest of the escaped text. */
  lemma {:induction false} EscapedStep(x: string, t: string)
    requires x != []
    requires ReadWord(t, Bare).Some?
    requires ReadWord(EscapeSingleQuotes(x[1..]) + "'" + t, InSingle)
          == Some(Word(x[1..] + ReadWord(t, Bare).value.text,
                       |EscapeSingleQuotes(x[1..])| + 1 + ReadWord(t, Bare).value.length))
    ensures ReadWord(EscapeSingleQuotes(x) + "'" + t, InSingle)
         == Some(Word(x + ReadWord(t, Bare).value.text,
                      |EscapeSingleQuotes(x)| + 1 + ReadWord(t, Bare).value.length))
  {
    var w := ReadWord(t, Bare).value;
    var after := EscapeSingleQuotes(x[1..]) + "'" + t;
    var whole := EscapeSingleQuotes(x) + "'" + t;
    EscapeUnfold(x, t);
    ReadsAfterChar(x[0], after, whole, x[1..] + w.text, |EscapeSingleQuotes(x[1..])| + 1 + w.length);
    ConsSlice(x, w.text);
  }

  /** The reading of `after` carries over to the text with one escaped character in front. */
  lemma ReadsAfterChar(c: char, after: string, whole: string, text: string, n: nat)
    requires whole == EscapeChar(c) + after
    requires ReadWord(after, InSingle) == Some(Word(text, n))
    ensures ReadWord(whole, InSingle) == Some(Word([c] + text, |EscapeChar(c)| + n))
  {
    EscapedCharReads(c, after);
  }

  lemma ConsSlice(x: string, u: string)
    requires x != []
    ensures [x[0]] + (x[1..] + u) == x + u
  {
    assert x == [x[0]] + x[1..];
  }

  /** Inside single quotes, one escaped character reads back as that character. */
  lemma EscapedCharReads(c: char, after: string)
    requires ReadWord(after, InSingle).Some?
    ensures ReadWord(EscapeChar(c) + after, InSingle)
         == Some(Word([c] + ReadWord(after, InSingle).value.text,
                      |EscapeChar(c)| + ReadWord(after, InSingle).value.length))
  {
    if c != '\'' {
      KeptInSingle(c, after);
    } else {
      EscapedQuoteReads(after);
    }
  }

  lemma EscapeUnfold(x: string, t: string)
    requires x != []
    ensures EscapeSingleQuotes(x) + "'" + t == EscapeChar(x[0]) + (EscapeSingleQuotes(x[1..]) + "'" + t)
    ensures |EscapeSingleQuotes(x)| == |EscapeChar(x[0])| + |EscapeSingleQuotes(x[1..])|
  {
  }

  lemma KeptInSingle(c: char, after: string)
    requires c != '\''
    requires ReadWord(after, InSingle).Some?
    ensures ReadWord([c] + after, InSingle)
         == Some(Word([c] + ReadWord(after, InSingle).value.text, ReadWord(after, InSingle).value.length + 1))
  {
    assert ([c] + after)[1..] == after;
  }

  /** Inside single quotes, `'"'"'` (close, a double-quoted quote, reopen) reads as one quote. */
  lemma EscapedQuoteReads(after: string)
    requires ReadWord(after, InSingle).Some?
    ensures ReadWord("'\"'\"'" + after, InSingle)
         == Some(Word("'" + ReadWord(after, InSingle).value.text, ReadWord(after, InSingle).value.length + 5))
  {
    var w := ReadWord(after, InSingle).value;
    var s4 := ['\''] + after;
    assert s4[1..] == after;
    assert ReadWord(s4, Bare) == Some(Word(w.text, w.length + 1));
    var s3 := ['"'] + s4;
    assert s3[1..] == s4;
    assert ReadWord(s3, InDouble) == Some(Word(w.text, w.length + 2));
    var s2 := ['\''] + s3;
    assert s2[1..] == s3;
    assert ReadWord(s2, InDouble) == Some(Word("'" + w.text, w.length + 3));
    var s1 := ['"'] + s2;
    assert s1[1..] == s2;
    assert ReadWord(s1, Bare) == Some(Word("'" + w.text, w.length + 4));
    var s0 := ['\''] + s1;
    assert s0[1..] == s1;
    assert s0 == "'\"'\"'" + after;
  }

  /** Whatever `shlex.quote` returns is read back as exactly one word: the original string. */
  lemma QuoteReadsBack(x: string, t: string)
    requires EndsWord(t)
    ensures ReadWord(Quote(x) + t, Bare) == Some(Word(x, |Quote(x)|))
  {
    if x != [] && AllSafe(x) {
      SafeQuoteReadsBack(x, t);
    } else {
      EscapedQuoteReadsBack(x, t);
    }
  }

  /** A string of safe characters is left as it is and reads back as itself. */
  lemma SafeQuoteReadsBack(x: string, t: string)
    requires EndsWord(t)
    requires x != [] && AllSafe(x)
    ensures ReadWord(Quote(x) + t, Bare) == Some(Word(x, |Quote(x)|))
  {
    EndsWordReads(t);
    forall i | 0 <= i < |x| ensures IsPlain(x[i]) { assert IsSafe(x[i]); }
    PlainReads(x, t);
    assert x + [] == x;
  }

  /** Any other string is single-quoted with its quotes escaped, and reads back as itself. */
  lemma {:induction false} EscapedQuoteReadsBack(x: string, t: string)
    requires EndsWord(t)
    requires !(x != [] && AllSafe(x))
    ensures ReadWord(Quote(x) + t, Bare) == Some(Word(x, |Quote(x)|))
  {
    var e := EscapeSingleQuotes(x);
    assert Quote(x) == "'" + e + "'";
    var rest := e + "'" + t;
    assert Quote(x) + t == ['\''] + rest;
    EndsWordReads(t);
    EscapedReads(x, t);
    OpeningQuoteReads(rest);
    assert x + [] == x;
  }

  /** An opening single quote is spanned but not kept, and the word goes on quoted. */
  lemma OpeningQuoteReads(rest: string)
    ensures ReadWord(['\''] + rest, Bare) == Skip(ReadWord(rest, InSingle))
  {
    assert (['\''] + rest)[1..] == rest;
  }

  /** `e` is one complete word on a line, read back as `d` whatever whitespace follows it. */
  ghost predicate ReadsAs(e: string, d: string)
  {
    && e != [] && !IsSpace(e[0])
    && forall t :: EndsWord(t) ==> ReadWord(e + t, Bare) == Some(Word(d, |e|))
  }

  /** Quoting yields a complete word that reads back as the original string. */
  lemma QuoteReadsAs(x: string)
    ensures ReadsAs(Quote(x), x)
  {
    QuoteStartsWord(x);
    forall t | EndsWord(t) ensures ReadWord(Quote(x) + t, Bare) == Some(Word(x, |Quote(x)|)) {
      QuoteReadsBack(x, t);
    }
  }

  /** A non-empty run of plain characters is a complete word that reads back as itself. */
  lemma PlainReadsAs(w: string)
    requires w != []
    requires forall i :: 0 <= i < |w| ==> IsPlain(w[i])
    ensures ReadsAs(w, w)
  {
    forall t | EndsWord(t) ensures ReadWord(w + t, Bare) == Some(Word(w, |w|)) {
      EndsWordReads(t);
      PlainReads(w, t);
      assert w + [] == w;
    }
  }

  /** Words joined by single spaces split back into exactly the words, in order. */
  lemma {:induction false} SplitJoin(words: seq<string>, texts: seq<string>)
    requires |words| == |texts|
    requires forall i :: 0 <= i < |words| ==> ReadsAs(words[i], texts[i])
    ensures Split(JoinSpaces(words)) == Some(texts)
    decreases |words|
  {
    if |words| == 1 {
      var e := words[0];
      assert ReadWord(e + [], Bare) == Some(Word(texts[0], |e|));
      assert e + [] == e;
      assert e[|e|..] == [];
      assert JoinSpaces(words) == e;
      assert ReadWord(e, Bare) == Some(Word(texts[0], |e|));
      assert Split(e) == Some([texts[0]] + []);
      assert [texts[0]] + [] == texts;
    } else if |words| > 1 {
      var e := words[0];
      var tail := " " + JoinSpaces(words[1..]);
      assert EndsWord(tail);
      assert ReadWord(e + tail, Bare) == Some(Word(texts[0], |e|));
      var line := JoinSpaces(words);
      assert line == e + tail;
      assert line[|e|..] == tail;
      assert tail[1..] == JoinSpaces(words[1..]);
      SplitJoin(words[1..], texts[1..]);
      assert texts == [texts[0]] + texts[1..];
    }
  }

  /** A quoted argument never begins with whitespace, so a reader starts a word at it. */
  lemma QuoteStartsWord(x: string)
    ensures Quote(x) != [] && !IsSpace(Quote(x)[0])
  {
    if x != [] && AllSafe(x) {
      assert IsSafe(x[0]);
    }
  }

  /** The 8-asterisk mask is not what quoting any string yields: '*' is never left bare. */
  lemma QuoteIsNeverStars(x: string, n: nat)
    requires n > 0
    ensures Quote(x) != seq(n, _ => '*')
  {
    var stars := seq(n, _ => '*');
    if x != [] && AllSafe(x) {
      assert IsSafe(x[0]);
    }
    assert Quote(x)[0] != stars[0];
  }
}
