/** The remote command line of packages/cli/src/cross-host-executor.ts: an argument vector is quoted
    for the login shell's `-lc` argument, and that argument is quoted again for the shell that ssh
    runs. Parsing both levels as a POSIX shell gives back the vector.

    The shell is the Shell Command Language of POSIX.1-2017, chapter 2, on the part a quoted line can
    reach: backslash (2.2.1) and single quotes (2.2.2), token recognition (2.3), quote removal (2.6.7)
    and assignment words of a simple command (2.9.1). Every other construct makes `Parse` give up, so
    a line it accepts undergoes no expansion. */
module CrossHostExecutor {
  import opened Options

  // ---------------------------------------------------------------------------------------------
  // The printer

  function Escape(s: string): string {
    if s == "" then ""
    else (if s[0] == '\'' then "'\\''" else [s[0]]) + Escape(s[1..])
  }

  function ShellQuote(s: string): string {
    "'" + Escape(s) + "'"
  }

  /** The quoted arguments, separated by single spaces. */
  function QuotedArgv(argv: seq<string>): string {
    if argv == [] then ""
    else if |argv| == 1 then ShellQuote(argv[0])
    else ShellQuote(argv[0]) + " " + QuotedArgv(argv[1..])
  }

  const ORIGIN_VARIABLE := "OPENRIG_SESSION_NAME"

  /** An absent or empty origin adds no prefix. */
  function InnerCommand(argv: seq<string>, origin: Option<string>): string {
    if origin.Some? && origin.value != "" then
      ORIGIN_VARIABLE + "=" + ShellQuote(origin.value) + " " + QuotedArgv(argv)
    else QuotedArgv(argv)
  }

  function RemoteCommandLine(argv: seq<string>, origin: Option<string>): string {
    "sh -lc " + ShellQuote(InnerCommand(argv, origin))
  }

  // ---------------------------------------------------------------------------------------------
  // The shell

  datatype Ch = Ch(c: char, quoted: bool)

  type Word = seq<Ch>

  datatype Command = Command(assignments: seq<(string, string)>, argv: seq<string>)

  predicate IsLetter(c: char) {
    'a' <= c <= 'z' || 'A' <= c <= 'Z'
  }

  predicate IsDigit(c: char) {
    '0' <= c <= '9'
  }

  /** Characters that mean themselves wherever they stand unquoted. */
  predicate Plain(c: char) {
    IsLetter(c) || IsDigit(c) || c == '_' || c == '-' || c == '.' || c == '/' || c == '='
    || c == ':' || c == ',' || c == '@' || c == '%' || c == '+'
  }

  function Extend(current: Option<Word>, more: Word): Option<Word> {
    Some((if current.Some? then current.value else []) + more)
  }

  function Close(current: Option<Word>, words: seq<Word>): seq<Word> {
    if current.Some? then words + [current.value] else words
  }

  /** Splits a line into words; `single` says whether a single quote is open. */
  function Scan(s: string, single: bool, current: Option<Word>, words: seq<Word>): Option<seq<Word>>
    decreases |s|
  {
    if s == "" then
      if single then None else Some(Close(current, words))
    else if single then
      if s[0] == '\'' then Scan(s[1..], false, current, words)
      else Scan(s[1..], true, Extend(current, [Ch(s[0], true)]), words)
    else if s[0] == '\'' then Scan(s[1..], true, Extend(current, []), words)
    else if s[0] == '\\' then
      if |s| == 1 then None
      else if s[1] == '\n' then Scan(s[2..], false, current, words)
      else Scan(s[2..], false, Extend(current, [Ch(s[1], true)]), words)
    else if s[0] == ' ' || s[0] == '\t' then Scan(s[1..], false, None, Close(current, words))
    else if Plain(s[0]) then Scan(s[1..], false, Extend(current, [Ch(s[0], false)]), words)
    else None
  }

  function Text(w: Word): string {
    seq(|w|, i requires 0 <= i < |w| => w[i].c)
  }

  /** The first unquoted equals sign, if any. */
  function EqualsAt(w: Word): Option<nat> {
    if w == [] then None
    else if w[0] == Ch('=', false) then Some(0)
    else
      var rest := EqualsAt(w[1..]);
      if rest.Some? then Some(rest.value + 1) else None
  }

  predicate IsName(w: Word) {
    && w != [] && !IsDigit(w[0].c)
    && forall i :: 0 <= i < |w| ==> !w[i].quoted && (IsLetter(w[i].c) || IsDigit(w[i].c) || w[i].c == '_')
  }

  predicate IsAssignment(w: Word) {
    var at := EqualsAt(w);
    at.Some? && at.value < |w| && IsName(w[..at.value])
  }

  const RESERVED: set<string> :=
    {"!", "{", "}", "case", "do", "done", "elif", "else", "esac", "fi", "for", "if", "in", "then", "until", "while"}

  predicate IsReserved(w: Word) {
    (forall i :: 0 <= i < |w| ==> !w[i].quoted) && Text(w) in RESERVED
  }

  function Texts(words: seq<Word>): seq<string> {
    seq(|words|, i requires 0 <= i < |words| => Text(words[i]))
  }

  /** A simple command: leading assignment words, then the fields. */
  function Interpret(words: seq<Word>): Option<Command> {
    if words == [] then Some(Command([], []))
    else if IsAssignment(words[0]) then
      var at := EqualsAt(words[0]).value;
      var rest := Interpret(words[1..]);
      if rest.None? then None
      else Some(rest.value.(assignments :=
                  [(Text(words[0][..at]), Text(words[0][at + 1..]))] + rest.value.assignments))
    else if IsReserved(words[0]) then None
    else Some(Command([], Texts(words)))
  }

  function Parse(line: string): Option<Command> {
    var words := Scan(line, false, None, []);
    if words.Some? then Interpret(words.value) else None
  }

  // ---------------------------------------------------------------------------------------------
  // Scanning what the printer wrote

  function Quoted(s: string): Word {
    seq(|s|, i requires 0 <= i < |s| => Ch(s[i], true))
  }

  function Bare(s: string): Word {
    seq(|s|, i requires 0 <= i < |s| => Ch(s[i], false))
  }

  lemma QuotedSplits(s: string)
    requires s != ""
    ensures [Ch(s[0], true)] + Quoted(s[1..]) == Quoted(s)
  {
  }

  lemma BareSplits(s: string)
    requires s != ""
    ensures [Ch(s[0], false)] + Bare(s[1..]) == Bare(s)
  {
  }

  /** A quote inside the argument: the string closes, an escaped quote follows, and it reopens. */
  lemma ScanEscapedQuote(tail: string, w: Word, words: seq<Word>)
    ensures Scan("'\\''" + tail, true, Some(w), words) == Scan(tail, true, Some(w + [Ch('\'', true)]), words)
  {
    var s := "'\\''" + tail;
    assert s[1..] == "\\''" + tail;
    assert s[1..][2..] == "'" + tail;
    assert ("'" + tail)[1..] == tail;
    var more := w + [Ch('\'', true)];
    assert more + [] == more;
    assert Scan(s[1..], false, Some(w), words) == Scan("'" + tail, false, Some(more), words);
  }

  lemma {:induction false} ScanEscaped(s: string, tail: string, w: Word, words: seq<Word>)
    ensures Scan(Escape(s) + "'" + tail, true, Some(w), words) == Scan(tail, false, Some(w + Quoted(s)), words)
  {
    if s == "" {
      assert Escape(s) + "'" + tail == "'" + tail;
      assert ("'" + tail)[1..] == tail;
      assert w + Quoted(s) == w;
    } else {
      var rest := Escape(s[1..]) + "'" + tail;
      var next := w + [Ch(s[0], true)];
      if s[0] == '\'' {
        assert Escape(s) + "'" + tail == "'\\''" + rest;
        ScanEscapedQuote(rest, w, words);
      } else {
        assert Escape(s) + "'" + tail == [s[0]] + rest;
        assert ([s[0]] + rest)[1..] == rest;
      }
      ScanEscaped(s[1..], tail, next, words);
      QuotedSplits(s);
      assert next + Quoted(s[1..]) == w + Quoted(s);
    }
  }

  lemma ScanQuote(s: string, tail: string, current: Option<Word>, words: seq<Word>)
    ensures Scan(ShellQuote(s) + tail, false, current, words) == Scan(tail, false, Extend(current, Quoted(s)), words)
  {
    var w := Extend(current, []).value;
    assert ShellQuote(s) + tail == "'" + (Escape(s) + "'" + tail);
    assert (ShellQuote(s) + tail)[1..] == Escape(s) + "'" + tail;
    ScanEscaped(s, tail, w, words);
    assert w + Quoted(s) == Extend(current, Quoted(s)).value;
  }

  lemma FreshWord(w: Word)
    ensures Extend(None, w) == Some(w)
  {
    assert [] + w == w;
  }

  lemma ScanSpace(tail: string, current: Option<Word>, words: seq<Word>)
    ensures Scan(" " + tail, false, current, words) == Scan(tail, false, None, Close(current, words))
  {
    assert (" " + tail)[1..] == tail;
  }

  lemma {:induction false} ScanBare(s: string, tail: string, current: Option<Word>, words: seq<Word>)
    requires s != "" && forall i :: 0 <= i < |s| ==> Plain(s[i])
    ensures Scan(s + tail, false, current, words) == Scan(tail, false, Extend(current, Bare(s)), words)
  {
    assert (s + tail)[1..] == s[1..] + tail;
    var next := Extend(current, [Ch(s[0], false)]);
    BareSplits(s);
    if |s| == 1 {
      assert s[1..] + tail == tail;
      assert Bare(s) == [Ch(s[0], false)];
    } else {
      ScanBare(s[1..], tail, next, words);
      assert Extend(next, Bare(s[1..])).value == Extend(current, Bare(s)).value;
    }
  }

  /** A bare or quoted word and the space after it. */
  lemma ScanBareWord(s: string, tail: string, words: seq<Word>)
    requires s != "" && forall i :: 0 <= i < |s| ==> Plain(s[i])
    ensures Scan(s + (" " + tail), false, None, words) == Scan(tail, false, None, words + [Bare(s)])
  {
    ScanBare(s, " " + tail, None, words);
    FreshWord(Bare(s));
    ScanSpace(tail, Some(Bare(s)), words);
  }

  lemma ScanQuotedWord(s: string, tail: string, words: seq<Word>)
    ensures Scan(ShellQuote(s) + (" " + tail), false, None, words) == Scan(tail, false, None, words + [Quoted(s)])
  {
    ScanQuote(s, " " + tail, None, words);
    FreshWord(Quoted(s));
    ScanSpace(tail, Some(Quoted(s)), words);
  }

  lemma ScanLastWord(s: string, words: seq<Word>)
    ensures Scan(ShellQuote(s), false, None, words) == Some(words + [Quoted(s)])
  {
    assert ShellQuote(s) + "" == ShellQuote(s);
    ScanQuote(s, "", None, words);
    FreshWord(Quoted(s));
  }

  function QuotedWords(argv: seq<string>): seq<Word> {
    seq(|argv|, i requires 0 <= i < |argv| => Quoted(argv[i]))
  }

  lemma {:induction false} ScanArgv(argv: seq<string>, words: seq<Word>)
    requires argv != []
    ensures Scan(QuotedArgv(argv), false, None, words) == Some(words + QuotedWords(argv))
  {
    if |argv| == 1 {
      ScanLastWord(argv[0], words);
      assert QuotedWords(argv) == [Quoted(argv[0])];
    } else {
      ScanQuotedWord(argv[0], QuotedArgv(argv[1..]), words);
      ScanArgv(argv[1..], words + [Quoted(argv[0])]);
      QuotedArgvSplits(argv);
      QuotedWordsSplit(argv, words);
    }
  }

  lemma QuotedArgvSplits(argv: seq<string>)
    requires |argv| > 1
    ensures QuotedArgv(argv) == ShellQuote(argv[0]) + (" " + QuotedArgv(argv[1..]))
  {
  }

  lemma QuotedWordsSplit(argv: seq<string>, words: seq<Word>)
    requires argv != []
    ensures words + [Quoted(argv[0])] + QuotedWords(argv[1..]) == words + QuotedWords(argv)
  {
    assert QuotedWords(argv) == [Quoted(argv[0])] + QuotedWords(argv[1..]);
  }

  // ---------------------------------------------------------------------------------------------
  // Interpreting it

  lemma TextQuoted(s: string)
    ensures Text(Quoted(s)) == s
  {
  }

  lemma TextBare(s: string)
    ensures Text(Bare(s)) == s
  {
  }

  lemma {:induction false} NoEqualsInQuoted(s: string)
    ensures EqualsAt(Quoted(s)).None?
  {
    if s != "" {
      assert Quoted(s)[1..] == Quoted(s[1..]);
      NoEqualsInQuoted(s[1..]);
    }
  }

  /** A quoted word is never an assignment or a reserved word, even when its text looks like one. */
  lemma QuotedIsPlainField(s: string)
    ensures !IsAssignment(Quoted(s)) && !IsReserved(Quoted(s))
  {
    NoEqualsInQuoted(s);
    if s == "" {
      assert Text(Quoted(s)) == "";
    } else {
      assert Quoted(s)[0].quoted;
    }
  }

  lemma InterpretQuoted(argv: seq<string>)
    requires argv != []
    ensures Interpret(QuotedWords(argv)) == Some(Command([], argv))
  {
    QuotedIsPlainField(argv[0]);
    forall i | 0 <= i < |argv| ensures Text(Quoted(argv[i])) == argv[i] {
      TextQuoted(argv[i]);
    }
    assert Texts(QuotedWords(argv)) == argv;
  }

  lemma {:induction false} EqualsAfter(name: string, w: Word)
    requires forall i :: 0 <= i < |name| ==> name[i] != '='
    ensures EqualsAt(Bare(name) + [Ch('=', false)] + w) == Some(|name|)
  {
    var whole := Bare(name) + [Ch('=', false)] + w;
    if name != "" {
      assert whole[1..] == Bare(name[1..]) + [Ch('=', false)] + w;
      EqualsAfter(name[1..], w);
    }
  }

  lemma OriginIsAssignment(value: string)
    ensures var w := Bare(ORIGIN_VARIABLE) + [Ch('=', false)] + Quoted(value);
      && IsAssignment(w) && EqualsAt(w) == Some(|ORIGIN_VARIABLE|)
      && Text(w[..|ORIGIN_VARIABLE|]) == ORIGIN_VARIABLE && Text(w[|ORIGIN_VARIABLE| + 1..]) == value
  {
    var w := Bare(ORIGIN_VARIABLE) + [Ch('=', false)] + Quoted(value);
    EqualsAfter(ORIGIN_VARIABLE, Quoted(value));
    assert w[..|ORIGIN_VARIABLE|] == Bare(ORIGIN_VARIABLE);
    assert w[|ORIGIN_VARIABLE| + 1..] == Quoted(value);
    TextQuoted(value);
    TextBare(ORIGIN_VARIABLE);
  }

  /** The words of the inner line. */
  function InnerWords(argv: seq<string>, origin: Option<string>): seq<Word> {
    if origin.Some? && origin.value != ""
    then [Bare(ORIGIN_VARIABLE) + [Ch('=', false)] + Quoted(origin.value)] + QuotedWords(argv)
    else QuotedWords(argv)
  }

  lemma ScanInner(argv: seq<string>, origin: Option<string>)
    requires argv != []
    ensures Scan(InnerCommand(argv, origin), false, None, []) == Some(InnerWords(argv, origin))
  {
    if origin.Some? && origin.value != "" {
      var name := ORIGIN_VARIABLE + "=";
      var rest := " " + QuotedArgv(argv);
      var w := Bare(name) + Quoted(origin.value);
      assert InnerCommand(argv, origin) == name + (ShellQuote(origin.value) + rest);
      ScanBare(name, ShellQuote(origin.value) + rest, None, []);
      FreshWord(Bare(name));
      ScanQuote(origin.value, rest, Some(Bare(name)), []);
      ScanSpace(QuotedArgv(argv), Some(w), []);
      ScanArgv(argv, [w]);
      assert Bare(name) == Bare(ORIGIN_VARIABLE) + [Ch('=', false)];
      assert [] + [w] == [w];
    } else {
      ScanArgv(argv, []);
      assert [] + QuotedWords(argv) == QuotedWords(argv);
    }
  }

  /** What the login shell runs: the vector, under the origin's identity when there is one. */
  function Intended(argv: seq<string>, origin: Option<string>): Command {
    Command(if origin.Some? && origin.value != "" then [(ORIGIN_VARIABLE, origin.value)] else [], argv)
  }

  lemma InnerRoundTrip(argv: seq<string>, origin: Option<string>)
    requires argv != []
    ensures Parse(InnerCommand(argv, origin)) == Some(Intended(argv, origin))
  {
    ScanInner(argv, origin);
    InterpretQuoted(argv);
    if origin.Some? && origin.value != "" {
      OriginIsAssignment(origin.value);
      var words := InnerWords(argv, origin);
      assert words[1..] == QuotedWords(argv);
      assert [(ORIGIN_VARIABLE, origin.value)] + [] == [(ORIGIN_VARIABLE, origin.value)];
    }
  }

  lemma ScanOuter(inner: string)
    ensures Scan("sh -lc " + ShellQuote(inner), false, None, []) == Some([Bare("sh"), Bare("-lc"), Quoted(inner)])
  {
    var last := ShellQuote(inner);
    assert "sh -lc " + last == "sh" + (" " + ("-lc" + (" " + last)));
    var none: seq<Word> := [];
    var one := none + [Bare("sh")];
    var two := one + [Bare("-lc")];
    ScanBareWord("sh", "-lc" + (" " + last), none);
    ScanBareWord("-lc", last, one);
    ScanLastWord(inner, two);
    assert two + [Quoted(inner)] == [Bare("sh"), Bare("-lc"), Quoted(inner)];
  }

  lemma {:induction false} NoEqualsInBare(s: string)
    requires forall i :: 0 <= i < |s| ==> s[i] != '='
    ensures EqualsAt(Bare(s)).None?
  {
    if s != "" {
      assert Bare(s)[1..] == Bare(s[1..]);
      NoEqualsInBare(s[1..]);
    }
  }

  lemma InterpretOuter(inner: string)
    ensures Interpret([Bare("sh"), Bare("-lc"), Quoted(inner)]) == Some(Command([], ["sh", "-lc", inner]))
  {
    NoEqualsInBare("sh");
    TextBare("sh");
    TextBare("-lc");
    TextQuoted(inner);
    assert Texts([Bare("sh"), Bare("-lc"), Quoted(inner)]) == ["sh", "-lc", inner];
  }

  /** Main result: the shell that ssh runs sees `sh -lc` with one argument, and the login shell that
      runs this argument sees exactly the original vector, with the origin as its one assignment. */
  lemma RemoteLineRoundTrip(argv: seq<string>, origin: Option<string>)
    requires argv != []
    ensures Parse(RemoteCommandLine(argv, origin)) == Some(Command([], ["sh", "-lc", InnerCommand(argv, origin)]))
    ensures Parse(InnerCommand(argv, origin)) == Some(Intended(argv, origin))
  {
    ScanOuter(InnerCommand(argv, origin));
    InterpretOuter(InnerCommand(argv, origin));
    InnerRoundTrip(argv, origin);
  }
}
