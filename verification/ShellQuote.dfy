/**
 shellQuote of LinGeneralAnalyzer.cpp, against the quoting rules of the Shell Command Language volume of
 POSIX.1-2017: section 2.2.1 (escape character), 2.2.2 (single-quotes), 2.3 (token recognition).
 */
module ShellQuote {
  import opened Sequences
  import opened Wrappers
  import opened Text

  // ---- the shell ----------------------------------------------------------------------------------------

  /** What reading a word gives: its value after quote removal and the unread text; `Open` if a quote never closes. */
  datatype Reading = Word(value: string, rest: string) | Open | Expansion

  /** An unquoted blank, newline or operator character delimits the word. */
  predicate Delimits(c: char) {
    || c == ' ' || c == '\t' || c == '\n'
    || c == '|' || c == '&' || c == ';' || c == '<' || c == '>' || c == '(' || c == ')'
  }

  /** Unquoted characters that make the shell do more than take them literally. */
  predicate Expands(c: char) {
    || c == '$' || c == '`' || c == '\"' || c == '*' || c == '?' || c == '['
    || c == '#' || c == '~' || c == '%'
  }

  function Cons(c: char, r: Reading): Reading {
    if r.Word? then r.(value := [c] + r.value) else r
  }

  function Unquoted(s: string): Reading
    decreases |s|
  {
    if s == "" || Delimits(s[0]) then Word("", s)
    else if s[0] == '\'' then SingleQuoted(s[1..])
    else if s[0] == '\\' then
      if |s| == 1 then Open
      else if s[1] == '\n' then Unquoted(s[2..])
      else Cons(s[1], Unquoted(s[2..]))
    else if Expands(s[0]) then Expansion
    else Cons(s[0], Unquoted(s[1..]))
  }

  function SingleQuoted(s: string): Reading
    decreases |s|
  {
    if s == "" then Open
    else if s[0] == '\'' then Unquoted(s[1..])
    else Cons(s[0], SingleQuoted(s[1..]))
  }

  /** Section 2.10.1: a number right before a redirection operator is not a word of the command. */
  predicate IsIoNumber(r: Reading) {
    r.Word? && r.value != "" && AllDigits(r.value) && r.rest != "" && (r.rest[0] == '<' || r.rest[0] == '>')
  }

  /** The words of a simple command, up to the first operator. */
  function Arguments(s: string): Option<seq<string>>
    decreases |s|
  {
    if s == "" then Some([])
    else if s[0] == ' ' || s[0] == '\t' then Arguments(s[1..])
    else if Delimits(s[0]) then Some([])
    else
      var r := Unquoted(s);
      if !r.Word? then None
      else if IsIoNumber(r) then Some([])
      else if |r.rest| >= |s| then None
      else AddArgument(r.value, Arguments(r.rest))
  }

  function AddArgument(word: string, rest: Option<seq<string>>): Option<seq<string>> {
    if rest.None? then None else Some([word] + rest.value)
  }

  // ---- the quoting --------------------------------------------------------------------------------------

  const ESCAPED_QUOTE := "'\\''"

  function QuoteBody(value: string): string {
    if value == "" then ""
    else (if value[0] == '\'' then ESCAPED_QUOTE else [value[0]]) + QuoteBody(value[1..])
  }

  function Quoted(value: string): string {
    "'" + QuoteBody(value) + "'"
  }

  method ShellQuote(value: string) returns (quoted: string)
    ensures quoted == Quoted(value)
  {
    quoted := "'";
    for i := 0 to |value|
      invariant quoted + QuoteBody(value[i..]) == "'" + QuoteBody(value)
    {
      assert value[i..][1..] == value[i + 1..];
      if value[i] == '\'' {
        quoted := quoted + ESCAPED_QUOTE;
      } else {
        quoted := quoted + [value[i]];
      }
    }
    quoted := quoted + "'";
  }

  // ---- the quoted text is one word with the given value -------------------------------------------------

  function Prepend(p: string, r: Reading): Reading {
    if r.Word? then r.(value := p + r.value) else r
  }

  lemma {:induction false} PrependCons(c: char, p: string, r: Reading)
    ensures Cons(c, Prepend(p, r)) == Prepend([c] + p, r)
  {
    if r.Word? {
      assert [c] + (p + r.value) == [c] + p + r.value;
    }
  }

  lemma {:induction false} PrependNothing(r: Reading)
    ensures Prepend("", r) == r
  {
    if r.Word? {
      assert "" + r.value == r.value;
    }
  }

  lemma {:induction false} EscapedQuoteReads(tail: string)
    ensures SingleQuoted(ESCAPED_QUOTE + tail) == Cons('\'', SingleQuoted(tail))
  {
    var s3 := ['\''] + tail;
    var s2 := ['\\', '\''] + s3;
    var s1 := ['\''] + s2;
    assert ESCAPED_QUOTE + tail == s1;
    assert s1[1..] == s2 && s2[2..] == s3 && s3[1..] == tail;
    assert Unquoted(s3) == SingleQuoted(tail);
    assert Unquoted(s2) == Cons('\'', Unquoted(s3));
  }

  /** Inside the quotes, every character comes out as itself. */
  lemma {:induction false} BodyReads(value: string, tail: string)
    ensures SingleQuoted(QuoteBody(value) + tail) == Prepend(value, SingleQuoted(tail))
  {
    if value == "" {
      assert QuoteBody(value) + tail == tail;
      PrependNothing(SingleQuoted(tail));
    } else {
      var rest := QuoteBody(value[1..]) + tail;
      BodyReads(value[1..], tail);
      PrependCons(value[0], value[1..], SingleQuoted(tail));
      assert [value[0]] + value[1..] == value;
      if value[0] == '\'' {
        assert QuoteBody(value) + tail == ESCAPED_QUOTE + rest;
        EscapedQuoteReads(rest);
      } else {
        assert QuoteBody(value) + tail == [value[0]] + rest;
        assert ([value[0]] + rest)[1..] == rest;
      }
    }
  }

  /** The text after the closing quote goes on as if the value had been written in its place. */
  lemma {:induction false} QuotedReads(value: string, tail: string)
    ensures Unquoted(Quoted(value) + tail) == Prepend(value, Unquoted(tail))
  {
    var s := Quoted(value) + tail;
    assert s[1..] == QuoteBody(value) + ("'" + tail);
    BodyReads(value, "'" + tail);
    assert ("'" + tail)[1..] == tail;
  }

  predicate IsPlain(c: char) {
    !Delimits(c) && !Expands(c) && c != '\'' && c != '\\'
  }

  predicate AllPlain(s: string) {
    forall i | 0 <= i < |s| :: IsPlain(s[i])
  }

  lemma {:induction false} PlainReads(p: string, tail: string)
    requires AllPlain(p)
    ensures Unquoted(p + tail) == Prepend(p, Unquoted(tail))
  {
    if p == "" {
      assert p + tail == tail;
      PrependNothing(Unquoted(tail));
    } else {
      assert (p + tail)[1..] == p[1..] + tail;
      PlainReads(p[1..], tail);
      PrependCons(p[0], p[1..], Unquoted(tail));
      assert [p[0]] + p[1..] == p;
    }
  }

  predicate EndsWord(tail: string) {
    tail == "" || Delimits(tail[0])
  }

  /** A quoted value, alone or behind plain text, is a single word with that value. */
  lemma {:induction false} QuotedIsOneWord(prefix: string, value: string, tail: string)
    requires AllPlain(prefix) && EndsWord(tail)
    ensures Unquoted(prefix + Quoted(value) + tail) == Word(prefix + value, tail)
  {
    assert prefix + Quoted(value) + tail == prefix + (Quoted(value) + tail);
    PlainReads(prefix, Quoted(value) + tail);
    QuotedReads(value, tail);
    assert value + "" == value;
  }

  // ---- through a C string -------------------------------------------------------------------------------

  /** popen gets a C string, which ends at the first NUL. */
  function CString(s: string): string {
    s[..IndexOf(s, '\0')]
  }

  lemma {:induction false} CStringWhole(s: string)
    requires '\0' !in s
    ensures CString(s) == s
  {
    IndexOfNone(s, '\0');
  }

  lemma {:induction false} CStringCut(before: string, after: string)
    requires '\0' !in before
    ensures CString(before + ['\0'] + after) == before
  {
    var s := before + ['\0'] + after;
    assert forall j | 0 <= j < |before| :: s[j] == before[j] && before[j] in before;
    IndexOfFirst(s, '\0', |before|);
  }

  lemma {:induction false} BodyConcat(a: string, b: string)
    ensures QuoteBody(a + b) == QuoteBody(a) + QuoteBody(b)
  {
    if a == "" {
      assert a + b == b;
    } else {
      assert (a + b)[1..] == a[1..] + b;
      BodyConcat(a[1..], b);
    }
  }

  lemma {:induction false} BodyHasNoNul(value: string)
    requires '\0' !in value
    ensures '\0' !in QuoteBody(value)
  {
    if value != "" {
      assert value[0] in value;
      BodyHasNoNul(value[1..]);
      assert '\0' !in ESCAPED_QUOTE;
    }
  }

  lemma {:induction false} QuotedHasNoNul(value: string)
    requires '\0' !in value
    ensures '\0' !in Quoted(value)
  {
    BodyHasNoNul(value);
  }

  /** A NUL in the value leaves the quote open. */
  lemma {:induction false} NulLeavesQuoteOpen(prefix: string, value: string, tail: string)
    requires AllPlain(prefix) && '\0' !in prefix && '\0' in value
    ensures Unquoted(CString(prefix + Quoted(value) + tail)) == Open
  {
    var a, b := SplitAtNul(value);
    BodyConcat(a, ['\0'] + b);
    assert (['\0'] + b)[1..] == b;
    BodyHasNoNul(a);
    var before := prefix + ("'" + QuoteBody(a));
    var after := QuoteBody(b) + "'" + tail;
    assert prefix + Quoted(value) + tail == before + ['\0'] + after;
    CStringCut(before, after);
    OpenQuoteReads(prefix, a);
  }

  lemma {:induction false} SplitAtNul(value: string) returns (a: string, b: string)
    requires '\0' in value
    ensures '\0' !in a && value == a + (['\0'] + b)
  {
    var i := IndexOf(value, '\0');
    a, b := value[..i], value[i + 1..];
  }

  lemma {:induction false} OpenQuoteReads(prefix: string, value: string)
    requires AllPlain(prefix)
    ensures Unquoted(prefix + ("'" + QuoteBody(value))) == Open
  {
    PlainReads(prefix, "'" + QuoteBody(value));
    assert ("'" + QuoteBody(value))[1..] == QuoteBody(value) + "";
    BodyReads(value, "");
  }

  /** What the shell gets is a single word with the given value exactly when the value has no NUL. */
  lemma {:induction false} QuotingWorksExactly(prefix: string, value: string, tail: string)
    requires AllPlain(prefix) && EndsWord(tail) && '\0' !in prefix && '\0' !in tail
    ensures Unquoted(CString(prefix + Quoted(value) + tail)) == Word(prefix + value, tail) <==> '\0' !in value
  {
    if '\0' in value {
      NulLeavesQuoteOpen(prefix, value, tail);
    } else {
      QuotedHasNoNul(value);
      CStringWhole(prefix + Quoted(value) + tail);
      QuotedIsOneWord(prefix, value, tail);
    }
  }

  // ---- the journal command ------------------------------------------------------------------------------

  const CURSOR_OPTION := "--cursor-file="

  /** The command `Refresh` runs. */
  function JournalCommand(path: string): string {
    "journalctl -k --cursor-file=" + Quoted(path) + " --no-pager -q --output=short 2>/dev/null"
  }

  lemma {:induction false} ArgumentReads(word: string, text: string, tail: string)
    requires text != "" && !Delimits(text[0]) && Unquoted(text + tail) == Word(word, tail)
    requires tail != "" && tail[0] == ' '
    ensures Arguments(text + tail) == AddArgument(word, Arguments(tail[1..]))
  {
    assert (text + tail)[0] == text[0];
  }

  lemma {:induction false} PlainArgument(word: string, tail: string)
    requires word != "" && AllPlain(word)
    ensures Arguments(word + " " + tail) == AddArgument(word, Arguments(tail))
  {
    PlainReads(word, " " + tail);
    assert word + " " + tail == word + (" " + tail);
    assert word + "" == word;
    ArgumentReads(word, word, " " + tail);
  }

  lemma {:induction false} QuotedArgument(prefix: string, value: string, tail: string)
    requires prefix != "" && AllPlain(prefix)
    ensures Arguments(prefix + Quoted(value) + " " + tail) == AddArgument(prefix + value, Arguments(tail))
  {
    QuotedIsOneWord(prefix, value, " " + tail);
    assert prefix + Quoted(value) + " " + tail == prefix + Quoted(value) + (" " + tail);
    ArgumentReads(prefix + value, prefix + Quoted(value), " " + tail);
  }

  lemma {:induction false} RedirectionEnds()
    ensures Arguments("2>/dev/null") == Some([])
  {
    var s := "2>/dev/null";
    assert s[1..] == ">/dev/null";
    assert Unquoted(s[1..]) == Word("", s[1..]);
    assert AllDigits("2");
    assert Unquoted(s) == Word("2", s[1..]);
  }

  /** Words, each with a blank behind it, and what follows. */
  function Leading(words: seq<string>, tail: string): string {
    if words == [] then tail else words[0] + " " + Leading(words[1..], tail)
  }

  predicate PlainWords(words: seq<string>) {
    forall i | 0 <= i < |words| :: words[i] != "" && AllPlain(words[i])
  }

  lemma {:induction false} LeadingHead(words: seq<string>, tail: string, more: seq<string>)
    requires words != [] && PlainWords(words) && Arguments(Leading(words[1..], tail)) == Some(more)
    ensures Arguments(Leading(words, tail)) == Some([words[0]] + more)
  {
    PlainArgument(words[0], Leading(words[1..], tail));
  }

  lemma {:induction false} LeadingArguments(words: seq<string>, tail: string, rest: seq<string>)
    requires PlainWords(words) && Arguments(tail) == Some(rest)
    ensures Arguments(Leading(words, tail)) == Some(words + rest)
  {
    if words == [] {
      assert words + rest == rest;
    } else {
      LeadingArguments(words[1..], tail, rest);
      LeadingHead(words, tail, words[1..] + rest);
      assert [words[0]] + words[1..] == words;
      Associate([words[0]], words[1..], rest);
    }
  }

  /** The arguments of a command with one quoted path behind an option. */
  lemma {:induction false} PathArguments(before: seq<string>, option: string, path: string, after: seq<string>,
      end: string)
    requires PlainWords(before) && PlainWords(after) && option != "" && AllPlain(option)
    requires Arguments(end) == Some([])
    ensures Arguments(Leading(before, option + Quoted(path) + " " + Leading(after, end)))
            == Some(before + ([option + path] + after))
  {
    LeadingArguments(after, end, []);
    assert after + [] == after;
    QuotedArgument(option, path, Leading(after, end));
    LeadingArguments(before, option + Quoted(path) + " " + Leading(after, end), [option + path] + after);
  }

  lemma {:induction false} LeadingTwo(a: string, b: string, tail: string)
    ensures Leading([a, b], tail) == a + " " + b + " " + tail
  {
    assert [a, b][1..] == [b] && [b][1..] == [];
    assert Leading([b], tail) == b + " " + Leading([], tail) == b + " " + tail;
    assert a + " " + (b + " " + tail) == a + " " + b + " " + tail;
  }

  lemma {:induction false} LeadingThree(a: string, b: string, c: string, tail: string)
    ensures Leading([a, b, c], tail) == a + " " + (b + " " + c + " " + tail)
  {
    assert [a, b, c][1..] == [b, c];
    LeadingTwo(b, c, tail);
  }

  const BEFORE := ["journalctl", "-k"]
  const AFTER := ["--no-pager", "-q", "--output=short"]

  lemma {:induction false} BeforeIsPlain()
    ensures PlainWords(BEFORE)
  {
    assert AllPlain("journalctl") && AllPlain("-k");
  }

  lemma {:induction false} AfterIsPlain()
    ensures PlainWords(AFTER)
  {
    assert AllPlain("--no-pager") && AllPlain("-q");
    assert AllPlain("--output=short");
  }

  lemma {:induction false} OptionIsPlain()
    ensures AllPlain(CURSOR_OPTION)
  {
  }

  lemma {:induction false} CommandStart(rest: string)
    ensures "journalctl -k --cursor-file=" + rest == "journalctl" + " " + "-k" + " " + (CURSOR_OPTION + rest)
  {
    assert "journalctl -k --cursor-file=" == "journalctl" + " " + "-k" + " " + CURSOR_OPTION;
  }

  lemma {:induction false} CommandTail()
    ensures "-q --output=short 2>/dev/null" == "-q" + " " + "--output=short" + " " + "2>/dev/null"
  {
  }

  lemma {:induction false} CommandEnd(tail: string)
    requires tail == "-q --output=short 2>/dev/null"
    ensures " --no-pager -q --output=short 2>/dev/null" == " " + ("--no-pager" + " " + tail)
  {
    var start := " --no-pager ";
    assert start == " " + "--no-pager" + " ";
    assert " --no-pager -q --output=short 2>/dev/null" == start + tail;
    Associate(" ", "--no-pager" + " ", tail);
    assert start == " " + ("--no-pager" + " ");
  }

  lemma {:induction false} CommandParts(path: string)
    ensures JournalCommand(path)
            == Leading(BEFORE, CURSOR_OPTION + Quoted(path) + " " + Leading(AFTER, "2>/dev/null"))
  {
    LeadingThree("--no-pager", "-q", "--output=short", "2>/dev/null");
    CommandTail();
    CommandEnd("-q --output=short 2>/dev/null");
    CommandJoined(Quoted(path), Leading(AFTER, "2>/dev/null"));
  }

  lemma {:induction false} CommandJoined(quoted: string, end: string)
    ensures "journalctl -k --cursor-file=" + quoted + (" " + end) == Leading(BEFORE, CURSOR_OPTION + quoted + " " + end)
  {
    LeadingTwo("journalctl", "-k", CURSOR_OPTION + quoted + " " + end);
    CommandStart(quoted + (" " + end));
    Associate("journalctl -k --cursor-file=", quoted, " " + end);
    Associate(CURSOR_OPTION, quoted, " " + end);
    Associate(CURSOR_OPTION + quoted, " ", end);
  }

  lemma {:induction false} CommandWhole(path: string)
    requires '\0' !in path
    ensures CString(JournalCommand(path)) == JournalCommand(path)
  {
    QuotedHasNoNul(path);
    assert '\0' !in "journalctl -k --cursor-file=";
    assert '\0' !in " --no-pager -q --output=short 2>/dev/null";
    CStringWhole(JournalCommand(path));
  }

  /** Whatever the path, the command names it in one argument, and has no other argument of the path's making. */
  lemma {:induction false} JournalArguments(path: string)
    requires '\0' !in path
    ensures Arguments(CString(JournalCommand(path)))
            == Some(BEFORE + ([CURSOR_OPTION + path] + AFTER))
  {
    CommandWhole(path);
    CommandParts(path);
    RedirectionEnds();
    BeforeIsPlain();
    AfterIsPlain();
    OptionIsPlain();
    PathArguments(BEFORE, CURSOR_OPTION, path, AFTER, "2>/dev/null");
  }
}
