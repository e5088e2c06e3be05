/** Lines, words and numbers, as iostreams and the sto... functions of the C++ library read them. */
module Text {
  import opened Sequences
  import opened Wrappers

  /** isspace in the "C" locale. */
  predicate IsSpace(c: char) {
    c == ' ' || '\t' <= c <= '\r'
  }

  predicate IsDigit(c: char) {
    '0' <= c <= '9'
  }

  lemma {:induction false} SixSpaces(c: char)
    ensures IsSpace(c) <==> c == ' ' || c == '\t' || c == '\n' || c == '\r' || c as int == 11 || c as int == 12
  {
  }

  predicate AllSpaces(s: string) {
    forall i | 0 <= i < |s| :: IsSpace(s[i])
  }

  predicate NoSpaces(s: string) {
    forall i | 0 <= i < |s| :: !IsSpace(s[i])
  }

  /** A non-empty run of non-blank characters. */
  predicate IsWord(s: string) {
    s != "" && NoSpaces(s)
  }

  // ---- lines ------------------------------------------------------------------------------------------------

  /** The first position of `c`, or the length. */
  function IndexOf(s: string, c: char): (i: nat)
    ensures i <= |s|
    ensures i < |s| ==> s[i] == c
    ensures forall j | 0 <= j < i :: s[j] != c
  {
    if s == "" || s[0] == c then 0 else 1 + IndexOf(s[1..], c)
  }

  /** The lines that repeated getline reads. */
  function Split(text: string, delim: char): seq<string>
    decreases |text|
  {
    if text == "" then []
    else
      var i := IndexOf(text, delim);
      if i == |text| then [text] else [text[..i]] + Split(text[i + 1..], delim)
  }

  function Lines(text: string): seq<string> {
    Split(text, '\n')
  }

  /** Each line ended by a newline. */
  function Unlines(lines: seq<string>): string {
    if lines == [] then "" else lines[0] + "\n" + Unlines(lines[1..])
  }

  predicate IsLine(s: string) {
    '\n' !in s
  }

  lemma {:induction false} IndexOfFirst(s: string, c: char, i: nat)
    requires i < |s| && s[i] == c && forall j | 0 <= j < i :: s[j] != c
    ensures IndexOf(s, c) == i
  {
  }

  lemma {:induction false} IndexOfNone(s: string, c: char)
    requires c !in s
    ensures IndexOf(s, c) == |s|
  {
    if s != "" {
      assert s[0] != c by { assert s[0] in s; }
      IndexOfNone(s[1..], c);
    }
  }

  lemma {:induction false} SplitFirst(line: string, delim: char, rest: string)
    requires delim !in line
    ensures Split(line + [delim] + rest, delim) == [line] + Split(rest, delim)
  {
    var text := line + [delim] + rest;
    assert forall j | 0 <= j < |line| :: text[j] == line[j] && line[j] in line;
    IndexOfFirst(text, delim, |line|);
    assert text[..|line|] == line && text[|line| + 1..] == rest;
  }

  lemma {:induction false} LinesOfUnlines(lines: seq<string>)
    requires forall l | l in lines :: IsLine(l)
    ensures Lines(Unlines(lines)) == lines
  {
    if lines != [] {
      assert IsLine(lines[0]) by { assert lines[0] in lines; }
      assert Unlines(lines) == lines[0] + ['\n'] + Unlines(lines[1..]);
      SplitFirst(lines[0], '\n', Unlines(lines[1..]));
      LinesOfUnlines(lines[1..]);
    }
  }

  lemma {:induction false} CutAt(s: string, i: nat)
    requires i < |s|
    ensures s == s[..i] + [s[i]] + s[i + 1..]
  {
  }

  /** The first line of a text, and what follows its newline. */
  lemma {:induction false} FirstLine(text: string) returns (line: string, rest: string)
    requires IndexOf(text, '\n') < |text|
    ensures '\n' !in line && text == line + ['\n'] + rest
    ensures Lines(text) == [line] + Lines(rest)
  {
    var i := IndexOf(text, '\n');
    line, rest := text[..i], text[i + 1..];
    CutAt(text, i);
    SplitFirst(line, '\n', rest);
  }

  /** Texts concatenated on a line boundary have their lines concatenated. */
  lemma {:induction false} LinesConcat(a: string, b: string)
    requires a == "" || a[|a| - 1] == '\n'
    ensures Lines(a + b) == Lines(a) + Lines(b)
    decreases |a|
  {
    if a == "" {
      assert a + b == b && [] + Lines(b) == Lines(b);
    } else {
      var line, rest := FirstLine(a);
      Associate(line + ['\n'], rest, b);
      SplitFirst(line, '\n', rest + b);
      LinesConcat(rest, b);
      Associate([line], Lines(rest), Lines(b));
    }
  }

  /** A final newline adds no line. */
  lemma {:induction false} FinalNewline(a: string)
    requires a != "" && a[|a| - 1] != '\n'
    ensures Lines(a + "\n") == Lines(a)
    decreases |a|
  {
    if IndexOf(a, '\n') == |a| {
      assert a + "\n" == a + ['\n'] + "";
      assert forall j | 0 <= j < |a| :: a[j] != '\n';
      SplitFirst(a, '\n', "");
    } else {
      var line, rest := FirstLine(a);
      Associate(line + ['\n'], rest, "\n");
      SplitFirst(line, '\n', rest + "\n");
      FinalNewline(rest);
    }
  }

  // ---- words ------------------------------------------------------------------------------------------------

  function WordLength(s: string): (n: nat)
    ensures n <= |s| && NoSpaces(s[..n])
    ensures n < |s| ==> IsSpace(s[n])
  {
    if s == "" || IsSpace(s[0]) then 0
    else
      assert forall i | 0 < i <= WordLength(s[1..]) :: s[i] == s[1..][i - 1];
      1 + WordLength(s[1..])
  }

  /** The words that repeated >> reads. */
  function Words(s: string): seq<string>
    decreases |s|
  {
    if s == "" then []
    else if IsSpace(s[0]) then Words(s[1..])
    else [s[..WordLength(s)]] + Words(s[WordLength(s)..])
  }

  lemma {:induction false} WordLengthFirst(w: string, rest: string)
    requires NoSpaces(w) && (rest == "" || IsSpace(rest[0]))
    ensures WordLength(w + rest) == |w|
  {
    if w == "" {
      assert w + rest == rest;
    } else {
      assert (w + rest)[1..] == w[1..] + rest;
      WordLengthFirst(w[1..], rest);
    }
  }

  lemma {:induction false} WordsFirst(w: string, rest: string)
    requires IsWord(w) && (rest == "" || IsSpace(rest[0]))
    ensures Words(w + rest) == [w] + Words(rest)
  {
    WordLengthFirst(w, rest);
    assert (w + rest)[..|w|] == w && (w + rest)[|w|..] == rest;
  }

  lemma {:induction false} WordsAfterSpaces(gap: string, rest: string)
    requires AllSpaces(gap)
    ensures Words(gap + rest) == Words(rest)
  {
    if gap == "" {
      assert gap + rest == rest;
    } else {
      assert (gap + rest)[1..] == gap[1..] + rest;
      WordsAfterSpaces(gap[1..], rest);
    }
  }

  /** A blank separates words. */
  lemma {:induction false} WordsConcat(a: string, blank: char, b: string)
    requires IsSpace(blank)
    ensures Words(a + [blank] + b) == Words(a) + Words(b)
    decreases |a|
  {
    var s := a + [blank] + b;
    if a == "" {
      assert s[1..] == b;
    } else if IsSpace(a[0]) {
      assert s[1..] == a[1..] + [blank] + b;
      WordsConcat(a[1..], blank, b);
    } else {
      var n := WordLength(a);
      assert n > 0;
      var w, rest := a[..n], a[n..];
      assert a == w + rest && s == w + (rest + [blank] + b);
      WordsFirst(w, rest);
      WordsFirst(w, rest + [blank] + b);
      WordsConcat(rest, blank, b);
    }
  }

  /** Words with a non-empty gap after each but the last, and leading and trailing blanks. */
  function Spread(words: seq<string>, gaps: seq<string>): string
    requires |gaps| == |words|
  {
    if words == [] then "" else words[0] + gaps[0] + Spread(words[1..], gaps[1..])
  }

  predicate GapsOk(gaps: seq<string>) {
    forall i | 0 <= i < |gaps| :: AllSpaces(gaps[i]) && (i < |gaps| - 1 ==> gaps[i] != "")
  }

  lemma {:induction false} WordsOfSpread(words: seq<string>, gaps: seq<string>)
    requires |gaps| == |words| && GapsOk(gaps) && forall w | w in words :: IsWord(w)
    ensures Words(Spread(words, gaps)) == words
  {
    if words != [] {
      var rest := gaps[0] + Spread(words[1..], gaps[1..]);
      assert Spread(words, gaps) == words[0] + rest;
      assert rest == "" || IsSpace(rest[0]) by {
        if gaps[0] == "" { assert words[1..] == []; }
      }
      WordsFirst(words[0], rest);
      WordsAfterSpaces(gaps[0], Spread(words[1..], gaps[1..]));
      WordsOfSpread(words[1..], gaps[1..]);
    }
  }

  /** One extraction, up to the blank that ends the word. */
  method ReadWord(s: string, i: nat) returns (j: nat)
    requires i <= |s|
    ensures j == i + WordLength(s[i..])
  {
    j := i;
    while j < |s| && !IsSpace(s[j])
      invariant i <= j <= |s|
      invariant j + WordLength(s[j..]) == i + WordLength(s[i..])
    {
      assert s[j..][1..] == s[j + 1..];
      j := j + 1;
    }
  }

  /** One turn of the extraction loop, with `parts` extracted so far. */
  lemma {:induction false} WordsStep(parts: seq<string>, s: string, i: nat, j: nat)
    requires i < |s| && j == i + WordLength(s[i..])
    ensures IsSpace(s[i]) ==> Words(s[i..]) == Words(s[i + 1..])
    ensures !IsSpace(s[i]) ==> i < j <= |s| && parts + Words(s[i..]) == (parts + [s[i..j]]) + Words(s[j..])
  {
    if IsSpace(s[i]) {
      assert s[i..][1..] == s[i + 1..];
    } else {
      assert s[i..][..j - i] == s[i..j] && s[i..][j - i..] == s[j..];
      Associate(parts, [s[i..j]], Words(s[j..]));
    }
  }

  /** The extraction loop of the splitters. */
  method SplitByWhitespace(s: string) returns (parts: seq<string>)
    ensures parts == Words(s)
  {
    parts := [];
    var i := 0;
    assert s[0..] == s && [] + Words(s) == Words(s);
    while i < |s|
      invariant 0 <= i <= |s|
      invariant parts + Words(s[i..]) == Words(s)
    {
      var j := ReadWord(s, i);
      WordsStep(parts, s, i, j);
      if IsSpace(s[i]) {
        i := i + 1;
      } else {
        parts := parts + [s[i..j]];
        i := j;
      }
    }
    assert s[i..] == "" && parts + [] == parts;
  }

  // ---- numbers ----------------------------------------------------------------------------------------------

  /** The value of a digit, or 99 if it is none. */
  function DigitValue(c: char): nat {
    if '0' <= c <= '9' then (c - '0') as nat
    else if 'a' <= c <= 'z' then (c - 'a') as nat + 10
    else if 'A' <= c <= 'Z' then (c - 'A') as nat + 10
    else 99
  }

  /** The length of the longest prefix of digits. */
  function DigitsLength(s: string, base: nat): (n: nat)
    ensures n <= |s|
  {
    if s == "" || DigitValue(s[0]) >= base then 0 else 1 + DigitsLength(s[1..], base)
  }

  function Value(digits: string, base: nat): nat {
    if digits == "" then 0 else base * Value(digits[..|digits| - 1], base) + DigitValue(digits[|digits| - 1])
  }

  /** A base prefix: what to skip, and the base the digits are in. */
  function BasePrefix(s: string, base: nat): (nat, nat) {
    if (base == 0 || base == 16) && |s| >= 3 && s[0] == '0' && (s[1] == 'x' || s[1] == 'X') && DigitValue(s[2]) < 16
    then (2, 16)
    else if base == 0 then (0, if s != "" && s[0] == '0' then 8 else 10)
    else (0, base)
  }

  function SkipSpaces(s: string): string {
    if s != "" && IsSpace(s[0]) then SkipSpaces(s[1..]) else s
  }

  /** strtol and its kin without limits: `None` when no number could be read. */
  function StrTo(s: string, base: nat): Option<int> {
    var t := SkipSpaces(s);
    var negative := t != "" && t[0] == '-';
    var u := if t != "" && (t[0] == '-' || t[0] == '+') then t[1..] else t;
    var (skip, b) := BasePrefix(u, base);
    var digits := if skip <= |u| then u[skip..] else "";
    var n := DigitsLength(digits, b);
    if n == 0 then None
    else
      var magnitude: int := Value(digits[..n], b);
      Some(if negative then -magnitude else magnitude)
  }

  const INT_MAX := 0x7FFF_FFFF
  const INT64_MAX := 0x7FFF_FFFF_FFFF_FFFF
  const UINT64_MAX := 0xFFFF_FFFF_FFFF_FFFF

  function InRange(n: Option<int>, low: int, high: int): Option<int> {
    if n.Some? && low <= n.value <= high then n else None
  }

  // The results are `None` where the library throws.

  function Stoi(s: string): Option<int> {
    InRange(StrTo(s, 10), -INT_MAX - 1, INT_MAX)
  }

  function Stoll(s: string, base: nat): Option<int> {
    InRange(StrTo(s, base), -INT64_MAX - 1, INT64_MAX)
  }

  /** A minus sign negates the result modulo 2^64. */
  function Stoull(s: string): Option<int> {
    var n := InRange(StrTo(s, 10), -UINT64_MAX, UINT64_MAX);
    if n.Some? then Some(n.value % (UINT64_MAX + 1)) else None
  }

  predicate AllDigits(s: string) {
    forall i | 0 <= i < |s| :: IsDigit(s[i])
  }

  lemma {:induction false} DigitsLengthAll(s: string, base: nat)
    requires base >= 10 && AllDigits(s)
    ensures DigitsLength(s, base) == |s|
  {
    if s != "" {
      DigitsLengthAll(s[1..], base);
    }
  }

  lemma {:induction false} StrToPlain(s: string, base: nat, b: nat)
    requires s != "" && IsDigit(s[0]) && BasePrefix(s, base) == (0, b) && DigitsLength(s, b) == |s|
    ensures StrTo(s, base) == Some(Value(s, b))
  {
    assert s[..|s|] == s && s[0..] == s;
  }

  /** The same behind a prefix that tells the base. */
  lemma {:induction false} StrToPrefixed(s: string, base: nat, skip: nat, b: nat)
    requires skip < |s| && IsDigit(s[0]) && BasePrefix(s, base) == (skip, b)
    requires DigitsLength(s[skip..], b) == |s| - skip
    ensures StrTo(s, base) == Some(Value(s[skip..], b))
  {
    assert s[skip..][..|s| - skip] == s[skip..];
  }

  /** A run of digits reads as its decimal value. */
  lemma {:induction false} StrToDigits(s: string)
    requires s != "" && AllDigits(s)
    ensures StrTo(s, 10) == Some(Value(s, 10))
  {
    DigitsLengthAll(s, 10);
    StrToPlain(s, 10, 10);
  }

  lemma {:induction false} ValueOfZero(base: nat)
    requires base > 0
    ensures Value("0", base) == 0 && DigitsLength("0", base) == 1
  {
    var s := "0";
    assert s[..0] == "" && s[1..] == "";
  }

  /** With base 0 a leading zero would make it octal. */
  lemma {:induction false} StrToDigitsAnyBase(s: string)
    requires s != "" && AllDigits(s) && (s[0] != '0' || |s| == 1)
    ensures StrTo(s, 0) == Some(Value(s, 10))
  {
    assert IsDigit(s[0]);
    if s[0] == '0' {
      assert s == "0";
      ValueOfZero(8);
      ValueOfZero(10);
      StrToPlain(s, 0, 8);
    } else {
      DigitsLengthAll(s, 10);
      StrToPlain(s, 0, 10);
    }
  }

  /** std::to_string and QString::number for a natural number. */
  function Decimal(n: nat): string {
    if n < 10 then [(n as char) + '0'] else Decimal(n / 10) + [((n % 10) as char) + '0']
  }

  lemma {:induction false} DecimalDigits(n: nat)
    ensures Decimal(n) != "" && AllDigits(Decimal(n))
    ensures Decimal(n)[0] == '0' ==> n == 0
    ensures Value(Decimal(n), 10) == n
  {
    if n < 10 {
      assert Decimal(n)[..0] == "";
    } else {
      DecimalDigits(n / 10);
      var init := Decimal(n / 10);
      assert Decimal(n)[..|Decimal(n)| - 1] == init;
    }
  }

  function Zeros(k: nat): string {
    seq(k, _ => '0')
  }

  /** Leading zeros do not change the decimal value. */
  lemma {:induction false} ZeroPadding(k: nat, digits: string)
    ensures Value(Zeros(k) + digits, 10) == Value(digits, 10)
    decreases |digits|, k
  {
    var s := Zeros(k) + digits;
    if digits != "" {
      assert s[..|s| - 1] == Zeros(k) + digits[..|digits| - 1];
      ZeroPadding(k, digits[..|digits| - 1]);
    } else if k > 0 {
      assert s[..|s| - 1] == Zeros(k - 1) + "";
      ZeroPadding(k - 1, "");
    } else {
      assert s == digits;
    }
  }

  /** A zero-padded decimal is a word that reads back as its number. */
  lemma {:induction false} PaddedDecimal(k: nat, n: nat)
    ensures var s := Zeros(k) + Decimal(n);
            && IsWord(s) && AllDigits(s)
            && StrTo(s, 10) == Some(n)
            && (k == 0 ==> StrTo(s, 0) == Some(n))
  {
    var s := Zeros(k) + Decimal(n);
    DecimalDigits(n);
    ZeroPadding(k, Decimal(n));
    assert AllDigits(s);
    StrToDigits(s);
    if k == 0 {
      assert s == Decimal(n);
      StrToDigitsAnyBase(s);
    }
    assert forall i | 0 <= i < |s| :: IsDigit(s[i]) && !IsSpace(s[i]);
  }
}

/** OutputParsersUtils.cpp. */
module OutputParsersUtils {
  import opened Text

  /** The characters of find_first_not_of(" \t\r\n"). */
  predicate IsBlank(c: char) {
    c == ' ' || c == '\t' || c == '\r' || c == '\n'
  }

  function TrimFront(s: string): string {
    if s != "" && IsBlank(s[0]) then TrimFront(s[1..]) else s
  }

  function TrimBack(s: string): string {
    if s != "" && IsBlank(s[|s| - 1]) then TrimBack(s[..|s| - 1]) else s
  }

  function Trim(s: string): string {
    TrimBack(TrimFront(s))
  }

  function Trimmed(lines: seq<string>): seq<string> {
    seq(|lines|, i requires 0 <= i < |lines| => Trim(lines[i]))
  }

  lemma {:induction false} TrimmedConcat(a: seq<string>, b: seq<string>)
    ensures Trimmed(a + b) == Trimmed(a) + Trimmed(b)
  {
  }

  function DropFront(lines: seq<string>): seq<string> {
    if lines != [] && lines[0] == "" then DropFront(lines[1..]) else lines
  }

  function DropBack(lines: seq<string>): seq<string> {
    if lines != [] && lines[|lines| - 1] == "" then DropBack(lines[..|lines| - 1]) else lines
  }

  function CleanLines(text: string): seq<string> {
    DropBack(DropFront(Trimmed(Lines(text))))
  }

  lemma {:induction false} DropFrontExactly(lines: seq<string>) returns (a: nat)
    ensures a <= |lines| && DropFront(lines) == lines[a..]
    ensures (forall i | 0 <= i < a :: lines[i] == "") && (a < |lines| ==> lines[a] != "")
  {
    if lines != [] && lines[0] == "" {
      a := DropFrontExactly(lines[1..]);
      a := a + 1;
    } else {
      a := 0;
    }
  }

  lemma {:induction false} DropBackExactly(lines: seq<string>) returns (b: nat)
    ensures b <= |lines| && DropBack(lines) == lines[..b]
    ensures (forall i | b <= i < |lines| :: lines[i] == "") && (b > 0 ==> lines[b - 1] != "")
  {
    if lines != [] && lines[|lines| - 1] == "" {
      b := DropBackExactly(lines[..|lines| - 1]);
    } else {
      b := |lines|;
    }
  }

  /** What is left are the trimmed lines without the empty ones at either end. */
  lemma {:induction false} CleanedExactly(text: string) returns (a: nat, b: nat)
    ensures var lines := Trimmed(Lines(text));
            && a <= b <= |lines| && CleanLines(text) == lines[a..b]
            && (forall i | 0 <= i < |lines| && !(a <= i < b) :: lines[i] == "")
            && (a < b ==> lines[a] != "" && lines[b - 1] != "")
  {
    var lines := Trimmed(Lines(text));
    a := DropFrontExactly(lines);
    var n := DropBackExactly(lines[a..]);
    b := a + n;
    assert lines[a..][..n] == lines[a..b];
    assert forall i | a <= i < |lines| :: lines[a..][i - a] == lines[i];
  }

  /** clean: getline, cleanup and trimList. */
  method Clean(input: string) returns (trimmed: seq<string>)
    ensures trimmed == CleanLines(input)
  {
    var lines: seq<string> := [];
    var rest := input;
    while rest != ""
      invariant lines + Lines(rest) == Lines(input)
      decreases |rest|
    {
      var i := IndexOf(rest, '\n');
      if i == |rest| {
        lines, rest := lines + [rest], "";
      } else {
        lines, rest := lines + [rest[..i]], rest[i + 1..];
      }
    }
    var cleanLines: seq<string> := [];
    for k := 0 to |lines|
      invariant cleanLines == Trimmed(lines[..k])
    {
      cleanLines := cleanLines + [Trim(lines[k])];
    }
    assert lines == Lines(input) && lines[..|lines|] == lines;
    trimmed := cleanLines;
    while trimmed != [] && trimmed[0] == ""
      invariant DropFront(trimmed) == DropFront(cleanLines)
      decreases |trimmed|
    {
      trimmed := trimmed[1..];
    }
    while trimmed != [] && trimmed[|trimmed| - 1] == ""
      invariant DropBack(trimmed) == CleanLines(input)
      decreases |trimmed|
    {
      trimmed := trimmed[..|trimmed| - 1];
    }
  }

  /** Trimming removes blanks at the ends and nothing else, so no word is lost. */
  lemma {:induction false} TrimFrontWords(s: string)
    ensures Words(TrimFront(s)) == Words(s)
  {
    if s != "" && IsBlank(s[0]) {
      TrimFrontWords(s[1..]);
    }
  }

  lemma {:induction false} TrimBackWords(s: string)
    ensures Words(TrimBack(s)) == Words(s)
  {
    if s != "" && IsBlank(s[|s| - 1]) {
      var init, last := s[..|s| - 1], s[|s| - 1];
      TrimBackWords(init);
      assert s == init + [last] + "";
      WordsConcat(init, last, "");
    }
  }

  lemma {:induction false} TrimWords(s: string)
    ensures Words(Trim(s)) == Words(s)
  {
    TrimFrontWords(s);
    TrimBackWords(TrimFront(s));
  }

  lemma {:induction false} TrimPadded(lead: string, s: string, trail: string)
    requires forall c | c in lead :: c == ' ' || c == '\t' || c == '\r' || c == '\n'
    requires forall c | c in trail :: c == ' ' || c == '\t' || c == '\r' || c == '\n'
    requires s != "" && !IsBlank(s[0]) && !IsBlank(s[|s| - 1])
    ensures Trim(lead + s + trail) == s
    decreases |lead| + |trail|
  {
    var t := lead + s + trail;
    if lead != "" {
      assert lead[0] in lead && forall c | c in lead[1..] :: c in lead;
      assert t[1..] == lead[1..] + s + trail;
      TrimPadded(lead[1..], s, trail);
    } else {
      assert t == s + trail;
      TrimBackPadded(s, trail);
    }
  }

  lemma {:induction false} TrimBackPadded(s: string, trail: string)
    requires forall c | c in trail :: IsBlank(c)
    requires s != "" && !IsBlank(s[|s| - 1])
    ensures TrimBack(s + trail) == s
  {
    var t := s + trail;
    if trail == "" {
      assert t == s;
    } else {
      assert trail[|trail| - 1] in trail;
      assert t[..|t| - 1] == s + trail[..|trail| - 1];
      TrimBackPadded(s, trail[..|trail| - 1]);
    }
  }
}
