/** Whitespace and tokens of SmartCtlOutputParser.cpp. */
module Simplify {
  import opened Sequences
  import opened Text

  predicate IsGap(c: char) {
    c == ' ' || c == '\t'
  }

  /** The loop of `simplified`: each run of blanks becomes one space, none at the front. */
  function Collapse(s: string, lastWasSpace: bool): string {
    if s == "" then ""
    else if IsGap(s[0]) then (if lastWasSpace then "" else " ") + Collapse(s[1..], true)
    else [s[0]] + Collapse(s[1..], false)
  }

  function Simplified(s: string): string {
    var t := Collapse(s, true);
    if t != "" && t[|t| - 1] == ' ' then t[..|t| - 1] else t
  }

  lemma {:induction false} CollapseNoLead(s: string)
    ensures var t := Collapse(s, true); t != "" ==> t[0] != ' '
  {
    if s != "" && IsGap(s[0]) {
      CollapseNoLead(s[1..]);
    }
  }

  /** One turn of the loop: `done` is what has been written, `s` what is left to read. */
  lemma {:induction false} CollapseStep(done: string, s: string, last: bool)
    requires s != ""
    ensures !IsGap(s[0]) ==> done + Collapse(s, last) == (done + [s[0]]) + Collapse(s[1..], false)
    ensures IsGap(s[0]) && last ==> done + Collapse(s, last) == done + Collapse(s[1..], true)
    ensures IsGap(s[0]) && !last ==> done + Collapse(s, last) == (done + " ") + Collapse(s[1..], true)
  {
    if !IsGap(s[0]) {
      Associate(done, [s[0]], Collapse(s[1..], false));
    } else if last {
      assert "" + Collapse(s[1..], true) == Collapse(s[1..], true);
    } else {
      Associate(done, " ", Collapse(s[1..], true));
    }
  }

  method Simplify(str: string) returns (result: string)
    ensures result == Simplified(str)
  {
    result := "";
    var lastWasSpace := true;
    for i := 0 to |str|
      invariant result + Collapse(str[i..], lastWasSpace) == Collapse(str, true)
    {
      CollapseStep(result, str[i..], lastWasSpace);
      assert str[i..][1..] == str[i + 1..];
      var c := str[i];
      if c == ' ' || c == '\t' {
        if !lastWasSpace {
          result := result + " ";
          lastWasSpace := true;
        }
      } else {
        result := result + [c];
        lastWasSpace := false;
      }
    }
    if result != "" && result[|result| - 1] == ' ' {
      result := result[..|result| - 1];
    }
    if result != "" && result[0] == ' ' {
      result := result[1..];
    }
    CollapseNoLead(str);
  }

  lemma {:induction false} CollapseWords(p: string, s: string, last: bool)
    requires last ==> p == "" || IsSpace(p[|p| - 1])
    ensures Words(p + Collapse(s, last)) == Words(p + s)
    decreases |s|
  {
    if s != "" {
      var c, rest := s[0], s[1..];
      assert s == [c] + rest;
      if !IsGap(c) {
        assert p + Collapse(s, last) == p + [c] + Collapse(rest, false);
        assert p + s == p + [c] + rest;
        CollapseWords(p + [c], rest, false);
      } else {
        GapWords(p, c, rest, last);
      }
    }
  }

  lemma {:induction false} GapWords(p: string, c: char, rest: string, last: bool)
    requires IsGap(c) && (last ==> p == "" || IsSpace(p[|p| - 1]))
    ensures Words(p + Collapse([c] + rest, last)) == Words(p + ([c] + rest))
    decreases |rest| + 1, 0
  {
    assert ([c] + rest)[1..] == rest;
    assert p + ([c] + rest) == p + [c] + rest;
    WordsConcat(p, c, rest);
    if last {
      assert p + ("" + Collapse(rest, true)) == p + Collapse(rest, true);
      CollapseWords(p, rest, true);
      BlankEndSeparates(p, rest);
    } else {
      CollapseWords(p + " ", rest, true);
      assert p + (" " + Collapse(rest, true)) == p + " " + Collapse(rest, true);
      WordsConcat(p, ' ', rest);
    }
  }

  lemma {:induction false} BlankEndSeparates(p: string, rest: string)
    requires p == "" || IsSpace(p[|p| - 1])
    ensures Words(p + rest) == Words(p) + Words(rest)
  {
    if p == "" {
      assert p + rest == rest;
    } else {
      var init, blank := p[..|p| - 1], p[|p| - 1];
      assert p + rest == init + [blank] + rest;
      WordsConcat(init, blank, rest);
      DropLastBlank(p);
    }
  }

  lemma {:induction false} DropLastBlank(p: string)
    requires p != "" && IsSpace(p[|p| - 1])
    ensures Words(p) == Words(p[..|p| - 1])
  {
    var init, blank := p[..|p| - 1], p[|p| - 1];
    assert p == init + [blank] + "";
    WordsConcat(init, blank, "");
  }

  /** No tab, no two spaces next to each other. */
  predicate IsTidy(s: string) {
    && (forall i | 0 <= i < |s| :: s[i] != '\t')
    && (forall i | 0 <= i < |s| - 1 :: !(s[i] == ' ' && s[i + 1] == ' '))
  }

  lemma {:induction false} TidyCons(c: char, rest: string)
    requires c != '\t' && IsTidy(rest) && (c == ' ' && rest != "" ==> rest[0] != ' ')
    ensures IsTidy([c] + rest)
  {
  }

  lemma {:induction false} CollapseShape(s: string, last: bool)
    ensures IsTidy(Collapse(s, last))
    ensures last && Collapse(s, last) != "" ==> Collapse(s, last)[0] != ' '
  {
    if s != "" {
      var rest := Collapse(s[1..], IsGap(s[0]));
      CollapseShape(s[1..], IsGap(s[0]));
      if !IsGap(s[0]) {
        TidyCons(s[0], rest);
      } else if last {
        assert "" + rest == rest;
      } else {
        TidyCons(' ', rest);
      }
    }
  }

  /** No tab is left, no two spaces are next to each other, and none is at an end. */
  lemma {:induction false} SimplifiedShape(s: string)
    ensures var t := Simplified(s); IsTidy(t) && (t != "" ==> t[0] != ' ' && t[|t| - 1] != ' ')
  {
    CollapseShape(s, true);
  }

  /** `simplified` never changes the tokens. */
  lemma {:induction false} SimplifiedKeepsWords(s: string)
    ensures Words(Simplified(s)) == Words(s)
  {
    var t := Collapse(s, true);
    CollapseWords("", s, true);
    assert "" + t == t && "" + s == s;
    if t != "" && t[|t| - 1] == ' ' {
      DropLastBlank(t);
    }
  }
}

/** The NVMe half of SmartCtlOutputParser.cpp; `None` stands for an exception that leaves the parser. */
module NvmeParser {
  import opened Sequences
  import opened Wrappers
  import opened Text

  // ---- values -------------------------------------------------------------------------------------------

  datatype Scan = Scan(negative: bool, digits: string)

  /** The digit loop: what it collects from `s` on, given whether it has seen a digit. */
  function ScanFrom(s: string, seenDigit: bool): Scan {
    if s == "" then Scan(false, "")
    else if s[0] == '-' && !seenDigit then ScanFrom(s[1..], seenDigit).(negative := true)
    else if IsDigit(s[0]) then var rest := ScanFrom(s[1..], true); rest.(digits := [s[0]] + rest.digits)
    else if seenDigit && !(s[0] == ' ' && |s| > 1 && IsDigit(s[1])) then Scan(false, "")
    else ScanFrom(s[1..], seenDigit)
  }

  /** The value text without a final percent sign and without a bracketed note. */
  function Stripped(val: string): string {
    var s := if val != "" && val[|val| - 1] == '%' then val[..|val| - 1] else val;
    s[..IndexOf(s, '[')]
  }

  predicate IsHex(s: string) {
    |s| >= 2 && s[0] == '0' && (s[1] == 'x' || s[1] == 'X')
  }

  function ScanValue(scan: Scan): Option<int> {
    if scan.digits == "" then Some(0)
    else
      var result := Stoll(scan.digits, 10);
      if result.Some? && scan.negative then Some(-result.value) else result
  }

  function NvmeValue(val: string): Option<int> {
    var s := Stripped(val);
    if IsHex(s) then Stoll(s, 16) else ScanValue(ScanFrom(s, false))
  }

  /** The digit loop. */
  method CollectDigits(s: string) returns (digits: string, negative: bool)
    ensures Scan(negative, digits) == ScanFrom(s, false)
  {
    var seenDigit := false;
    digits, negative := "", false;
    var i := 0;
    while i < |s|
      invariant 0 <= i <= |s|
      invariant var rest := ScanFrom(s[i..], seenDigit);
                ScanFrom(s, false) == Scan(negative || rest.negative, digits + rest.digits)
    {
      assert s[i..][1..] == s[i + 1..];
      var c := s[i];
      if c == '-' && !seenDigit {
        negative := true;
      } else if '0' <= c <= '9' {
        digits := digits + [c];
        seenDigit := true;
      } else if c == ' ' && seenDigit {
        if !(i + 1 < |s| && '0' <= s[i + 1] <= '9') {
          break;
        }
      } else if seenDigit {
        break;
      }
      i := i + 1;
    }
  }

  method ParseNvmeValue(val: string) returns (result: Option<int>)
    ensures result == NvmeValue(val)
  {
    var s := val;
    if s != "" && s[|s| - 1] == '%' {
      s := s[..|s| - 1];
    }
    var bracketPos := IndexOf(s, '[');
    s := s[..bracketPos];
    if IsHex(s) {
      return Stoll(s, 16);
    }
    var digits, negative := CollectDigits(s);
    result := SignedValue(digits, negative);
  }

  /** std::stoll, or 0 without digits, and the sign. */
  method SignedValue(digits: string, negative: bool) returns (result: Option<int>)
    ensures result == ScanValue(Scan(negative, digits))
  {
    if digits == "" {
      return Some(0);
    }
    result := Stoll(digits, 10);
    if result.Some? && negative {
      result := Some(-result.value);
    }
  }

  predicate IsGroup(g: string) {
    g != "" && AllDigits(g)
  }

  function Joined(groups: seq<string>, sep: char): string {
    if groups == [] then "" else if |groups| == 1 then groups[0] else groups[0] + [sep] + Joined(groups[1..], sep)
  }

  function Flat(groups: seq<string>): string {
    if groups == [] then "" else groups[0] + Flat(groups[1..])
  }

  datatype Suffix = Plain | Percent | Celsius | Note(text: string)

  function SuffixText(x: Suffix): string {
    match x
    case Plain => ""
    case Percent => "%"
    case Celsius => " Celsius"
    case Note(text) => " [" + text + "]"
  }

  /** What may follow the digits for the scan to stop there. */
  predicate EndsScan(tail: string) {
    tail == "" || (!IsDigit(tail[0]) && !(tail[0] == ' ' && |tail| > 1 && IsDigit(tail[1])))
  }

  lemma {:induction false} ScanDigits(g: string, rest: string)
    requires AllDigits(g)
    ensures var after := ScanFrom(rest, true);
            ScanFrom(g + rest, true) == after.(digits := g + after.digits)
  {
    if g == "" {
      assert g + rest == rest;
    } else {
      assert (g + rest)[1..] == g[1..] + rest;
      ScanDigits(g[1..], rest);
    }
  }

  lemma {:induction false} ScanGroups(groups: seq<string>, tail: string)
    requires groups != [] && (forall g | g in groups :: IsGroup(g)) && EndsScan(tail)
    ensures ScanFrom(Joined(groups, ' ') + tail, true) == Scan(false, Flat(groups))
    decreases |groups|
  {
    var g := groups[0];
    assert IsGroup(g);
    if |groups| == 1 {
      ScanDigits(g, tail);
      assert Flat(groups) == g by { assert groups[1..] == []; }
    } else {
      var rest := Joined(groups[1..], ' ') + tail;
      assert Joined(groups, ' ') + tail == g + (" " + rest);
      ScanDigits(g, " " + rest);
      assert groups[1] in groups && IsGroup(groups[1]);
      assert rest[0] == groups[1][0];
      assert (" " + rest)[1..] == rest;
      ScanGroups(groups[1..], tail);
    }
  }

  lemma {:induction false} JoinedShape(groups: seq<string>)
    requires groups != [] && forall g | g in groups :: IsGroup(g)
    ensures var s := Joined(groups, ' ');
            && s != "" && IsDigit(s[0]) && IsDigit(s[|s| - 1])
            && (forall i | 0 <= i < |s| :: IsDigit(s[i]) || s[i] == ' ')
            && Flat(groups) != "" && AllDigits(Flat(groups))
    decreases |groups|
  {
    assert IsGroup(groups[0]);
    if |groups| == 1 {
      assert Flat(groups) == groups[0] by { assert groups[1..] == []; }
    } else {
      JoinedShape(groups[1..]);
    }
  }

  /** What is left of a suffix when percent sign and note are gone. */
  function Remainder(x: Suffix): string {
    match x case Plain => "" case Percent => "" case Celsius => " Celsius" case Note(_) => " "
  }

  lemma {:induction false} StrippedSuffix(s: string, x: Suffix)
    requires s != "" && IsDigit(s[|s| - 1]) && forall i | 0 <= i < |s| :: s[i] != '['
    ensures EndsScan(Remainder(x)) && Stripped(s + SuffixText(x)) == s + Remainder(x)
  {
    match x
    case Plain => assert s + "" == s; UnsuffixedStripped(s);
    case Percent => PercentStripped(s);
    case Celsius => CelsiusStripped(s);
    case Note(text) => NoteStripped(s, text);
  }

  lemma {:induction false} UnsuffixedStripped(s: string)
    requires s != "" && s[|s| - 1] != '%' && forall i | 0 <= i < |s| :: s[i] != '['
    ensures Stripped(s) == s
  {
    NoBracket(s);
  }

  lemma {:induction false} CelsiusStripped(s: string)
    requires forall i | 0 <= i < |s| :: s[i] != '['
    ensures EndsScan(" Celsius") && Stripped(s + " Celsius") == s + " Celsius"
  {
    var tail := " Celsius";
    assert forall i | 0 <= i < |tail| :: tail[i] != '[';
    assert (s + tail)[|s + tail| - 1] == tail[7];
    UnsuffixedStripped(s + tail);
  }

  lemma {:induction false} PercentStripped(s: string)
    requires forall i | 0 <= i < |s| :: s[i] != '['
    ensures Stripped(s + "%") == s + ""
  {
    assert (s + "%")[..|s|] == s;
    NoBracket(s);
  }

  lemma {:induction false} NoteStripped(s: string, text: string)
    requires forall i | 0 <= i < |s| :: s[i] != '['
    ensures Stripped(s + (" [" + text + "]")) == s + " "
  {
    var val := s + " " + ['['] + (text + "]");
    assert s + (" [" + text + "]") == val && val[|val| - 1] == ']';
    IndexOfFirst(val, '[', |s + " "|);
    assert val[..|s + " "|] == s + " ";
  }

  lemma {:induction false} NoBracket(s: string)
    requires forall i | 0 <= i < |s| :: s[i] != '['
    ensures s[..IndexOf(s, '[')] == s
  {
    assert '[' !in s;
    IndexOfNone(s, '[');
  }

  /** The number some digits stand for, or nothing if it does not fit into 63 bits. */
  function ParsedNumber(digits: string): Option<int> {
    var n: int := Value(digits, 10);
    if n <= INT64_MAX then Some(n) else None
  }

  lemma {:induction false} ScanNumber(digits: string)
    requires digits != "" && AllDigits(digits)
    ensures ScanValue(Scan(false, digits)) == ParsedNumber(digits)
  {
    StrToDigits(digits);
  }

  /**
   However its digits are split into groups with single spaces between them, and whatever known suffix follows, the
   text of a number below 2^63 parses to that number, and the text of a larger one makes the parser throw.
   */
  lemma {:induction false} GroupedValueParses(groups: seq<string>, x: Suffix)
    requires groups != [] && forall g | g in groups :: IsGroup(g)
    ensures NvmeValue(Joined(groups, ' ') + SuffixText(x)) == ParsedNumber(Flat(groups))
  {
    var s, tail := Joined(groups, ' '), Remainder(x);
    JoinedShape(groups);
    StrippedSuffix(s, x);
    NotHex(s, tail);
    ScanGroups(groups, tail);
    ScanNumber(Flat(groups));
  }

  lemma {:induction false} NotHex(s: string, tail: string)
    requires s != "" && forall i | 0 <= i < |s| :: IsDigit(s[i]) || s[i] == ' '
    requires tail != "" && s == "0" ==> tail[0] != 'x' && tail[0] != 'X'
    ensures !IsHex(s + tail)
  {
  }

  lemma {:induction false} DecimalParses(n: nat, groups: seq<string>, x: Suffix)
    requires n <= INT64_MAX && groups != [] && (forall g | g in groups :: IsGroup(g)) && Flat(groups) == Decimal(n)
    ensures NvmeValue(Joined(groups, ' ') + SuffixText(x)) == Some(n)
  {
    DecimalDigits(n);
    GroupedValueParses(groups, x);
  }

  // ---- signs ----------------------------------------------------------------------------------------------

  /** No digit, and no start of a note. */
  predicate IsPreface(p: string) {
    forall i | 0 <= i < |p| :: !IsDigit(p[i]) && p[i] != '['
  }

  /** What stands before the first digit is skipped, but a minus sign counts. */
  lemma {:induction false} ScanPreface(p: string, rest: string)
    requires forall i | 0 <= i < |p| :: !IsDigit(p[i])
    ensures var after := ScanFrom(rest, false);
            ScanFrom(p + rest, false) == after.(negative := after.negative || '-' in p)
  {
    if p == "" {
      assert p + rest == rest;
    } else {
      assert (p + rest)[1..] == p[1..] + rest;
      ScanPreface(p[1..], rest);
    }
  }

  lemma {:induction false} ScanGroupsFirst(groups: seq<string>, tail: string)
    requires groups != [] && (forall g | g in groups :: IsGroup(g)) && EndsScan(tail)
    ensures ScanFrom(Joined(groups, ' ') + tail, false) == Scan(false, Flat(groups))
  {
    JoinedShape(groups);
    ScanGroups(groups, tail);
  }

  lemma {:induction false} ScanSigned(negative: bool, digits: string)
    requires digits != "" && AllDigits(digits)
    ensures var n: int := Value(digits, 10);
            ScanValue(Scan(negative, digits))
            == if n > 9_223_372_036_854_775_807 then None else Some(if negative then -n else n)
  {
    StrToDigits(digits);
  }

  /**
   Whatever without a digit stands before a number, the number is read, as a negative one if there is a minus sign in
   front of it.
   */
  lemma {:induction false} PrefacedValueParses(p: string, groups: seq<string>, x: Suffix)
    requires IsPreface(p) && groups != [] && forall g | g in groups :: IsGroup(g)
    ensures var n: int := Value(Flat(groups), 10);
            NvmeValue(p + Joined(groups, ' ') + SuffixText(x))
            == if n > 9_223_372_036_854_775_807 then None else Some(if '-' in p then -n else n)
  {
    var s := Joined(groups, ' ');
    JoinedShape(groups);
    PrefacedShape(p, s);
    StrippedSuffix(p + s, x);
    Associate(p, s, Remainder(x));
    PrefacedIsNotHex(p, s, Remainder(x));
    PrefacedScan(p, groups, x);
    ScannedValue(p + s + SuffixText(x), p + (s + Remainder(x)));
    ScanSigned('-' in p, Flat(groups));
  }

  lemma {:induction false} ScannedValue(val: string, stripped: string)
    requires Stripped(val) == stripped && !IsHex(stripped)
    ensures NvmeValue(val) == ScanValue(ScanFrom(stripped, false))
  {
  }

  lemma {:induction false} PrefacedScan(p: string, groups: seq<string>, x: Suffix)
    requires IsPreface(p) && groups != [] && (forall g | g in groups :: IsGroup(g)) && EndsScan(Remainder(x))
    ensures ScanFrom(p + (Joined(groups, ' ') + Remainder(x)), false) == Scan('-' in p, Flat(groups))
  {
    ScanPreface(p, Joined(groups, ' ') + Remainder(x));
    ScanGroupsFirst(groups, Remainder(x));
  }

  lemma {:induction false} PrefacedShape(p: string, s: string)
    requires IsPreface(p) && s != "" && IsDigit(s[|s| - 1])
    requires forall i | 0 <= i < |s| :: IsDigit(s[i]) || s[i] == ' '
    ensures p + s != "" && IsDigit((p + s)[|p + s| - 1]) && forall i | 0 <= i < |p + s| :: (p + s)[i] != '['
  {
  }

  lemma {:induction false} PrefacedIsNotHex(p: string, s: string, tail: string)
    requires IsPreface(p) && s != "" && forall i | 0 <= i < |s| :: IsDigit(s[i]) || s[i] == ' '
    requires tail != "" ==> tail[0] != 'x' && tail[0] != 'X'
    ensures !IsHex(p + (s + tail))
  {
    if p == "" {
      assert p + (s + tail) == s + tail;
      NotHex(s, tail);
    }
  }

  /** A value without any digit reads as 0. */
  lemma {:induction false} NoDigitsReadAsZero(val: string)
    requires forall i | 0 <= i < |val| :: !IsDigit(val[i])
    ensures NvmeValue(val) == Some(0)
  {
    var s := Stripped(val);
    ScanPreface(s, "");
    assert s + "" == s;
  }

  // ---- other separators ---------------------------------------------------------------------------------

  /** The mark of a hexadecimal number. */
  predicate MarksHex(g: string, sep: char) {
    g == "0" && (sep == 'x' || sep == 'X')
  }

  lemma {:induction false} CutAtBracket(g: string, u: string) returns (tail: string)
    requires AllDigits(g)
    ensures (g + u)[..IndexOf(g + u, '[')] == g + tail && (tail == "" || (u != "" && tail[0] == u[0]))
  {
    var k := IndexOf(g + u, '[');
    assert forall i | 0 <= i < |g| :: (g + u)[i] == g[i] && IsDigit(g[i]);
    assert k >= |g|;
    tail := u[..k - |g|];
    assert (g + u)[..k] == g + tail;
  }

  lemma {:induction false} StrippedAfterGroup(g: string, sep: char, rest: string) returns (tail: string)
    requires IsGroup(g)
    ensures Stripped(g + ([sep] + rest)) == g + tail && (tail == "" || tail[0] == sep)
  {
    var u := [sep] + rest;
    LastOfBoth(g, u);
    if u[|u| - 1] == '%' {
      tail := CutAtBracket(g, u[..|u| - 1]);
    } else {
      tail := CutAtBracket(g, u);
    }
  }

  lemma {:induction false} LastOfBoth(g: string, u: string)
    requires u != ""
    ensures (g + u)[|g + u| - 1] == u[|u| - 1] && (g + u)[..|g + u| - 1] == g + u[..|u| - 1]
  {
  }

  /** Any other character after a group of digits ends the number, whatever comes then. */
  lemma {:induction false} OnlyFirstGroup(g: string, sep: char, rest: string)
    requires IsGroup(g) && !IsDigit(sep) && sep != ' ' && !MarksHex(g, sep)
    ensures NvmeValue(g + ([sep] + rest)) == ParsedNumber(g)
  {
    var tail := StrippedAfterGroup(g, sep, rest);
    NotHex(g, tail);
    ScanDigits(g, tail);
    assert g + "" == g;
    ScanNumber(g);
  }

  /**
   Groups with one and the same character between them read as the whole number if that character is a space, and
   as the first group otherwise: `104 824` is 104824, but `104,824` is 104.
   */
  lemma {:induction false} SeparatorDecides(groups: seq<string>, sep: char, x: Suffix)
    requires |groups| >= 2 && (forall g | g in groups :: IsGroup(g)) && !IsDigit(sep) && !MarksHex(groups[0], sep)
    ensures NvmeValue(Joined(groups, sep) + SuffixText(x))
            == ParsedNumber(if sep == ' ' then Flat(groups) else groups[0])
  {
    if sep == ' ' {
      GroupedValueParses(groups, x);
    } else {
      var rest := Joined(groups[1..], sep) + SuffixText(x);
      JoinedHead(groups, sep, SuffixText(x));
      assert groups[0] in groups;
      OnlyFirstGroup(groups[0], sep, rest);
    }
  }

  lemma {:induction false} JoinedHead(groups: seq<string>, sep: char, tail: string)
    requires |groups| >= 2
    ensures Joined(groups, sep) + tail == groups[0] + ([sep] + (Joined(groups[1..], sep) + tail))
  {
  }

  lemma {:induction false} HexDigits(h: string)
    requires forall i | 0 <= i < |h| :: DigitValue(h[i]) < 16
    ensures DigitsLength(h, 16) == |h|
  {
    if h != "" {
      HexDigits(h[1..]);
    }
  }

  lemma {:induction false} HexReads(h: string, s: string)
    requires h != "" && (forall i | 0 <= i < |h| :: DigitValue(h[i]) < 16)
    requires s == "0x" + h
    ensures StrTo(s, 16) == Some(Value(h, 16))
  {
    HexDigits(h);
    assert s[2..] == h && h[..|h|] == h && s[0] == '0' && s[1] == 'x' && s[2] == h[0];
  }

  /** The separator left out above: a hexadecimal number below 2^63 reads as that. */
  lemma {:induction false} HexValueParses(h: string)
    requires h != "" && forall i | 0 <= i < |h| :: DigitValue(h[i]) < 16
    ensures var n: int := Value(h, 16);
            NvmeValue("0x" + h) == if n <= INT64_MAX then Some(n) else None
  {
    var s := "0x" + h;
    assert s[|s| - 1] == h[|h| - 1];
    assert forall i | 0 <= i < |s| :: s[i] != '[' by {
      assert forall i | 2 <= i < |s| :: s[i] == h[i - 2];
    }
    UnsuffixedStripped(s);
    HexReads(h, s);
  }
}

/** The NVMe health section as a table of attributes. */
module NvmeHealth {
  import opened Wrappers
  import opened Health
  import opened SmartHealth
  import opened Text
  import opened Simplify
  import opened NvmeParser

  const NVME_MARKER := "SMART/Health Information (NVMe"

  predicate OccursAt(s: string, pattern: string, i: nat) {
    i + |pattern| <= |s| && s[i..i + |pattern|] == pattern
  }

  /** std::string::find(...) != npos. */
  predicate Contains(s: string, pattern: string) {
    exists i | 0 <= i <= |s| :: OccursAt(s, pattern, i)
  }

  lemma {:induction false} ContainsExactly(s: string, pattern: string)
    ensures Contains(s, pattern) <==> exists before, after :: s == before + pattern + after
  {
    if i :| 0 <= i <= |s| && OccursAt(s, pattern, i) {
      assert s == s[..i] + pattern + s[i + |pattern|..];
    }
    if before, after :| s == before + pattern + after {
      assert s[|before|..|before| + |pattern|] == pattern;
      assert OccursAt(s, pattern, |before|);
    }
  }

  datatype Entry = Entry(key: string, val: string)

  /** The lines from the first one with the marker on. */
  function FromMarker(lines: seq<string>): seq<string> {
    if lines == [] || Contains(lines[0], NVME_MARKER) then lines else FromMarker(lines[1..])
  }

  function Tail(lines: seq<string>): seq<string> {
    if lines == [] then [] else lines[1..]
  }

  function EntryOf(line: string): seq<Entry> {
    var colon := IndexOf(line, ':');
    if colon == |line| || Simplified(line[..colon]) == "" then []
    else [Entry(Simplified(line[..colon]), Simplified(line[colon + 1..]))]
  }

  function EntriesOf(lines: seq<string>): seq<Entry> {
    if lines == [] || lines[0] == "" then [] else EntryOf(lines[0]) + EntriesOf(lines[1..])
  }

  function HealthEntries(lines: seq<string>): seq<Entry> {
    EntriesOf(Tail(FromMarker(lines)))
  }

  /** The body of the second loop: no entry or one. */
  method ParseEntry(line: string) returns (entry: seq<Entry>)
    ensures entry == EntryOf(line)
  {
    entry := [];
    var colonPos := IndexOf(line, ':');
    if colonPos < |line| {
      var key := Simplify.Simplify(line[..colonPos]);
      var val := Simplify.Simplify(line[colonPos + 1..]);
      if key != "" {
        entry := [Entry(key, val)];
      }
    }
  }

  method NvmeHealthEntries(lines: seq<string>) returns (entries: seq<Entry>)
    ensures entries == HealthEntries(lines)
  {
    entries := [];
    var it := lines;
    while it != [] && !Contains(it[0], NVME_MARKER)
      invariant FromMarker(it) == FromMarker(lines)
      decreases |it|
    {
      it := it[1..];
    }
    if it != [] {
      it := it[1..];
    }
    while it != [] && it[0] != ""
      invariant entries + EntriesOf(it) == HealthEntries(lines)
      decreases |it|
    {
      var entry := ParseEntry(it[0]);
      entries := entries + entry;
      it := it[1..];
    }
  }

  /** static_cast<int> of a 64-bit value. */
  function ToInt32(n: int): int {
    (n + 0x8000_0000) % 0x1_0000_0000 - 0x8000_0000
  }

  /** The value that is congruent modulo 2^32 and fits. */
  lemma {:induction false} ToInt32Wraps(n: int)
    ensures -0x8000_0000 <= ToInt32(n) < 0x8000_0000
    ensures exists k :: ToInt32(n) == n + k * 0x1_0000_0000
  {
    var k := -((n + 0x8000_0000) / 0x1_0000_0000);
    assert ToInt32(n) == n + k * 0x1_0000_0000;
  }

  function Underscored(key: string): string {
    seq(|key|, i requires 0 <= i < |key| => if key[i] == ' ' then '_' else key[i])
  }

  const SPARE := "Available_Spare"
  const SPARE_THRESHOLD := "Available_Spare_Threshold"

  /** The attribute at position `i`; identifiers count from 1 and wrap at 8 bits. */
  function EntryAttribute(i: nat, e: Entry, rawVal: int): Attribute {
    var value := if e.key == "Available Spare" then ToInt32(rawVal) else 0;
    Attribute((i + 1) % 256, Underscored(e.key), value, value, 0, rawVal)
  }

  predicate AllParse(entries: seq<Entry>) {
    forall i | 0 <= i < |entries| :: NvmeValue(entries[i].val).Some?
  }

  /** The attributes before the spare threshold is applied. */
  function RawAttributes(entries: seq<Entry>): seq<Attribute>
    requires AllParse(entries)
  {
    seq(|entries|, i requires 0 <= i < |entries| => EntryAttribute(i, entries[i], NvmeValue(entries[i].val).value))
  }

  function FirstNamed(attributes: seq<Attribute>, name: string): (i: nat)
    ensures i <= |attributes|
    ensures i < |attributes| ==> attributes[i].name == name
    ensures forall j | 0 <= j < i :: attributes[j].name != name
  {
    if attributes == [] || attributes[0].name == name then 0 else 1 + FirstNamed(attributes[1..], name)
  }

  function SpareThreshold(attributes: seq<Attribute>): int {
    var t := FirstNamed(attributes, SPARE_THRESHOLD);
    if t < |attributes| then ToInt32(attributes[t].rawVal) else 0
  }

  /** The first spare attribute is given the first spare threshold, if that is positive. */
  function Patched(attributes: seq<Attribute>): seq<Attribute> {
    var s, threshold := FirstNamed(attributes, SPARE), SpareThreshold(attributes);
    if threshold > 0 && s < |attributes| then attributes[s := attributes[s].(threshold := threshold)] else attributes
  }

  method FindNamed(attributes: seq<Attribute>, name: string) returns (i: nat)
    ensures i == FirstNamed(attributes, name)
  {
    i := 0;
    while i < |attributes| && attributes[i].name != name
      invariant i <= |attributes|
      invariant i + FirstNamed(attributes[i..], name) == FirstNamed(attributes, name)
    {
      i := i + 1;
    }
  }

  lemma {:induction false} AllParseSnoc(entries: seq<Entry>, e: Entry)
    ensures AllParse(entries + [e]) <==> AllParse(entries) && NvmeValue(e.val).Some?
  {
    assert (entries + [e])[|entries|] == e;
    if AllParse(entries + [e]) {
      forall j | 0 <= j < |entries| ensures NvmeValue(entries[j].val).Some? {
        assert (entries + [e])[j] == entries[j];
      }
    }
  }

  lemma {:induction false} RawAttributesSnoc(entries: seq<Entry>, e: Entry)
    requires AllParse(entries) && AllParse(entries + [e]) && NvmeValue(e.val).Some?
    ensures RawAttributes(entries + [e])
            == RawAttributes(entries) + [EntryAttribute(|entries|, e, NvmeValue(e.val).value)]
  {
    forall j | 0 <= j < |entries| ensures RawAttributes(entries + [e])[j] == RawAttributes(entries)[j] {
      assert (entries + [e])[j] == entries[j];
    }
  }

  /** The body of the first loop of parseNvmeHealth, once the value has parsed. */
  method MakeAttribute(id: int, e: Entry, rawVal: int, ghost i: nat) returns (a: Attribute)
    requires id == (i + 1) % 256
    ensures a == EntryAttribute(i, e, rawVal)
  {
    var name := "";
    for k := 0 to |e.key|
      invariant name == Underscored(e.key[..k])
    {
      name := name + [if e.key[k] == ' ' then '_' else e.key[k]];
    }
    assert e.key[..|e.key|] == e.key;
    var value := 0;
    if e.key == "Available Spare" {
      value := ToInt32(rawVal);
    }
    a := Attribute(id, name, value, value, 0, rawVal);
  }

  /** The first loop of parseNvmeHealth. */
  method CollectAttributes(entries: seq<Entry>) returns (result: Option<seq<Attribute>>)
    ensures result.Some? <==> AllParse(entries)
    ensures result.Some? ==> result.value == RawAttributes(entries)
  {
    var attributes: seq<Attribute> := [];
    var nextId := 1;
    var i := 0;
    while i < |entries|
      invariant 0 <= i <= |entries|
      invariant AllParse(entries[..i]) && attributes == RawAttributes(entries[..i])
      invariant nextId == (i + 1) % 256
    {
      var rawVal := ParseNvmeValue(entries[i].val);
      if rawVal.None? {
        return None;
      }
      var a := MakeAttribute(nextId, entries[i], rawVal.value, i);
      PrefixStep(entries, i);
      attributes := attributes + [a];
      NextId(i);
      nextId := (nextId + 1) % 256;
      i := i + 1;
    }
    assert entries[..i] == entries;
    result := Some(attributes);
  }

  /** Identifiers wrap at 8 bits. */
  lemma {:induction false} NextId(i: nat)
    ensures ((i + 1) % 256 + 1) % 256 == (i + 2) % 256
  {
  }

  lemma {:induction false} PrefixStep(entries: seq<Entry>, i: nat)
    requires i < |entries| && AllParse(entries[..i]) && NvmeValue(entries[i].val).Some?
    ensures AllParse(entries[..i + 1])
    ensures RawAttributes(entries[..i + 1])
            == RawAttributes(entries[..i]) + [EntryAttribute(i, entries[i], NvmeValue(entries[i].val).value)]
  {
    assert entries[..i + 1] == entries[..i] + [entries[i]];
    AllParseSnoc(entries[..i], entries[i]);
    RawAttributesSnoc(entries[..i], entries[i]);
  }

  /** `None` when a value does not fit and the exception leaves the parser. */
  method ParseNvmeHealth(lines: seq<string>) returns (result: Option<seq<Attribute>>)
    ensures var entries := HealthEntries(lines);
            result == if AllParse(entries) then Some(Patched(RawAttributes(entries))) else None
  {
    var entries := NvmeHealthEntries(lines);
    result := CollectAttributes(entries);
    if result.None? {
      return;
    }
    var attributes := PatchSpare(result.value);
    result := Some(attributes);
  }

  /** The post-processing at the end of parseNvmeHealth. */
  method PatchSpare(attributes: seq<Attribute>) returns (patched: seq<Attribute>)
    ensures patched == Patched(attributes)
  {
    patched := attributes;
    var spareThreshold := 0;
    var t := FindNamed(attributes, SPARE_THRESHOLD);
    if t < |attributes| {
      spareThreshold := ToInt32(attributes[t].rawVal);
    }
    if spareThreshold > 0 {
      var s := FindNamed(attributes, SPARE);
      if s < |attributes| {
        patched := attributes[s := attributes[s].(threshold := spareThreshold)];
      }
    }
  }

  lemma {:induction false} PatchedSpareIsBad(attributes: seq<Attribute>, s: nat)
    requires s == FirstNamed(attributes, SPARE) && s < |attributes|
    requires 0 < attributes[s].value <= SpareThreshold(attributes)
    ensures TableVerdict(Patched(attributes)) == Bad
  {
    var patched := Patched(attributes)[s];
    assert patched in Patched(attributes) && AttributeVerdict(patched) == Bad;
    TableVerdictOfBad(Patched(attributes), patched);
  }

  lemma {:induction false} ToInt32Small(n: int)
    requires 0 <= n <= INT_MAX
    ensures ToInt32(n) == n
  {
  }

  /** Only the first spare attribute is given a threshold, that of the first spare threshold if it is positive. */
  lemma {:induction false} PatchedExactly(attributes: seq<Attribute>, s: nat, t: nat)
    requires s <= |attributes| && forall j | 0 <= j < s :: attributes[j].name != "Available_Spare"
    requires s < |attributes| ==> attributes[s].name == "Available_Spare"
    requires t < |attributes| && attributes[t].name == "Available_Spare_Threshold"
    requires forall j | 0 <= j < t :: attributes[j].name != "Available_Spare_Threshold"
    ensures var threshold := ToInt32(attributes[t].rawVal);
            Patched(attributes)
            == if threshold > 0 && s < |attributes| then attributes[s := attributes[s].(threshold := threshold)]
               else attributes
  {
    assert FirstNamed(attributes, SPARE) == s && FirstNamed(attributes, SPARE_THRESHOLD) == t;
  }

  /** The spare attribute by itself is bad exactly when its value is positive and not above the spare threshold. */
  lemma {:induction false} PatchedSpareExactly(attributes: seq<Attribute>, s: nat)
    requires s == FirstNamed(attributes, SPARE) && s < |attributes| && attributes[s].threshold == 0
    ensures AttributeVerdict(Patched(attributes)[s]) == Bad <==> 0 < attributes[s].value <= SpareThreshold(attributes)
  {
  }

  /**
   The spare attribute of a drive is bad exactly when some spare is left and it has fallen to the threshold, and the
   drive is bad then.  A spare that is used up is not flagged: the verdict ignores a value of 0.
   */
  lemma {:induction false} SpareIsBadExactly(entries: seq<Entry>, s: nat, t: nat, spare: int, threshold: int)
    requires AllParse(entries) && s < |entries| && t < |entries|
    requires s == FirstNamed(RawAttributes(entries), SPARE) && entries[s].key == "Available Spare"
    requires t == FirstNamed(RawAttributes(entries), SPARE_THRESHOLD)
    requires NvmeValue(entries[s].val) == Some(spare) && NvmeValue(entries[t].val) == Some(threshold)
    requires 0 <= spare <= INT_MAX && 0 <= threshold <= INT_MAX
    ensures AttributeVerdict(Patched(RawAttributes(entries))[s]) == Bad <==> 0 < spare <= threshold
    ensures 0 < spare <= threshold ==> TableVerdict(Patched(RawAttributes(entries))) == Bad
  {
    var attributes := RawAttributes(entries);
    ToInt32Small(spare);
    ToInt32Small(threshold);
    assert attributes[s].value == spare && SpareThreshold(attributes) == threshold;
    PatchedSpareExactly(attributes, s);
    if 0 < spare <= threshold {
      PatchedSpareIsBad(attributes, s);
    }
  }

  /** The name of an entry's attribute: its key with underscores for spaces. */
  predicate Named(e: Entry, name: string) {
    |e.key| == |name| && forall k | 0 <= k < |name| :: name[k] == if e.key[k] == ' ' then '_' else e.key[k]
  }

  lemma {:induction false} NamedExactly(e: Entry, name: string)
    ensures Underscored(e.key) == name <==> Named(e, name)
  {
  }

  lemma {:induction false} PatchedAt(attributes: seq<Attribute>, i: nat)
    requires i < |attributes|
    ensures |Patched(attributes)| == |attributes|
    ensures Patched(attributes)[i]
            == attributes[i].(threshold := if i == FirstNamed(attributes, SPARE) && SpareThreshold(attributes) > 0
                                           then SpareThreshold(attributes) else attributes[i].threshold)
  {
  }

  /** An entry that by itself shows an NVMe drive to be bad: one of the two critical fields, or the wear. */
  predicate Condemns(e: Entry)
    requires NvmeValue(e.val).Some?
  {
    || ((Named(e, "Critical_Warning") || Named(e, "Media_and_Data_Integrity_Errors")) && NvmeValue(e.val).value > 0)
    || (Named(e, "Percentage_Used") && NvmeValue(e.val).value >= 100)
  }

  /** The first spare has fallen to the spare threshold. */
  predicate SpareLow(entries: seq<Entry>)
    requires AllParse(entries)
  {
    var attributes := RawAttributes(entries);
    var s := FirstNamed(attributes, SPARE);
    s < |attributes| && 0 < attributes[s].value <= SpareThreshold(attributes)
  }

  lemma {:induction false} NvmeAttributeIsBad(entries: seq<Entry>, i: nat)
    requires AllParse(entries) && i < |entries|
    ensures |Patched(RawAttributes(entries))| == |entries|
    ensures AttributeVerdict(Patched(RawAttributes(entries))[i]) == Bad
            <==> Condemns(entries[i]) || (i == FirstNamed(RawAttributes(entries), SPARE) && SpareLow(entries))
  {
    var attributes := RawAttributes(entries);
    PatchedAt(attributes, i);
    BadByItself(Patched(attributes)[i]);
    NamedExactly(entries[i], "Critical_Warning");
    NamedExactly(entries[i], "Media_and_Data_Integrity_Errors");
    NamedExactly(entries[i], "Percentage_Used");
  }

  /**
   An NVMe drive is bad exactly when its health section has a critical warning or a media error above zero, a wear of
   100 % or more, or a positive spare at or below the spare threshold.
   */
  lemma {:induction false} NvmeIsBadExactly(entries: seq<Entry>)
    requires AllParse(entries)
    ensures TableVerdict(Patched(RawAttributes(entries))) == Bad
            <==> SpareLow(entries) || exists i :: 0 <= i < |entries| && Condemns(entries[i])
  {
    var patched, s := Patched(RawAttributes(entries)), FirstNamed(RawAttributes(entries), SPARE);
    BadAtSomePosition(patched);
    forall i: nat | i < |entries|
      ensures |patched| == |entries|
      ensures AttributeVerdict(patched[i]) == Bad <==> Condemns(entries[i]) || (i == s && SpareLow(entries))
    {
      NvmeAttributeIsBad(entries, i);
    }
    SameLength(entries);
  }

  lemma {:induction false} SameLength(entries: seq<Entry>)
    requires AllParse(entries)
    ensures |Patched(RawAttributes(entries))| == |entries|
  {
  }

  /** Three lines of a health section. */
  const USED_UP :=
    [Entry("Available Spare", "0%"), Entry("Available Spare Threshold", "10%"), Entry("Percentage Used", "5%")]

  lemma {:induction false} PercentParses(n: nat, text: string)
    requires n <= INT64_MAX && text == Decimal(n) + "%"
    ensures NvmeValue(text) == Some(n)
  {
    var groups := [Decimal(n)];
    DecimalDigits(n);
    assert groups[1..] == [];
    DecimalParses(n, groups, Percent);
  }

  lemma {:induction false} UsedUpValues()
    ensures NvmeValue(USED_UP[0].val) == Some(0) && NvmeValue(USED_UP[1].val) == Some(10)
    ensures NvmeValue(USED_UP[2].val) == Some(5)
  {
    assert Decimal(1) == "1" && Decimal(10) == Decimal(1) + "0";
    PercentParses(0, "0%");
    PercentParses(10, "10%");
    PercentParses(5, "5%");
  }

  lemma {:induction false} UsedUpNames()
    ensures Underscored(USED_UP[0].key) == SPARE && Underscored(USED_UP[1].key) == SPARE_THRESHOLD
    ensures Underscored(USED_UP[2].key) == "Percentage_Used"
  {
  }

  const WEAR := "Percentage_Used"
  const USED_UP_SPARE := Attribute(1, SPARE, 0, 0, 0, 0)
  const USED_UP_THRESHOLD := Attribute(2, SPARE_THRESHOLD, 0, 0, 0, 10)
  const USED_UP_WEAR := Attribute(3, WEAR, 0, 0, 0, 5)

  lemma {:induction false} OtherKeys()
    ensures USED_UP[0].key == "Available Spare"
    ensures USED_UP[1].key != "Available Spare" && USED_UP[2].key != "Available Spare"
  {
    assert |USED_UP[1].key| == 25 && |"Available Spare"| == 15;
    assert USED_UP[2].key[0] == 'P' && "Available Spare"[0] == 'A';
  }

  lemma {:induction false} UsedUpEntries()
    ensures EntryAttribute(0, USED_UP[0], 0) == USED_UP_SPARE
    ensures EntryAttribute(1, USED_UP[1], 10) == USED_UP_THRESHOLD
    ensures EntryAttribute(2, USED_UP[2], 5) == USED_UP_WEAR
  {
    UsedUpNames();
    OtherKeys();
    ToInt32Small(0);
  }

  lemma {:induction false} ThreeAttributes(entries: seq<Entry>, a: int, b: int, c: int)
    requires |entries| == 3 && NvmeValue(entries[0].val) == Some(a)
    requires NvmeValue(entries[1].val) == Some(b) && NvmeValue(entries[2].val) == Some(c)
    ensures AllParse(entries)
    ensures RawAttributes(entries)
            == [EntryAttribute(0, entries[0], a), EntryAttribute(1, entries[1], b), EntryAttribute(2, entries[2], c)]
  {
    assert RawAttributes(entries[..0]) == [];
    PrefixStep(entries, 0);
    PrefixStep(entries, 1);
    PrefixStep(entries, 2);
    assert entries[..3] == entries;
  }

  lemma {:induction false} UsedUpAttributes()
    ensures AllParse(USED_UP) && RawAttributes(USED_UP) == [USED_UP_SPARE, USED_UP_THRESHOLD, USED_UP_WEAR]
  {
    UsedUpValues();
    ThreeAttributes(USED_UP, 0, 10, 5);
    UsedUpEntries();
  }

  lemma {:induction false} SparesDiffer()
    ensures SPARE != SPARE_THRESHOLD
  {
    assert |SPARE| == 15;
    assert |SPARE_THRESHOLD| == 25;
  }

  lemma {:induction false} SecondPatchesFirst(a: Attribute, b: Attribute, c: Attribute)
    requires a.name == SPARE && b.name == SPARE_THRESHOLD && 0 < b.rawVal <= INT_MAX
    ensures Patched([a, b, c]) == [a.(threshold := b.rawVal), b, c]
  {
    var attributes := [a, b, c];
    SparesDiffer();
    ToInt32Small(b.rawVal);
    assert attributes[1..] == [b, c];
    assert FirstNamed(attributes, SPARE) == 0 && FirstNamed(attributes, SPARE_THRESHOLD) == 1;
  }

  /** What is neither critical nor above its limits is good. */
  lemma {:induction false} HarmlessIsGood(a: Attribute)
    requires a.id <= 3 && a.value == 0 && (a.rawVal == 0 || !IsCriticalNvme(a.name))
    requires a.rawVal < NVME_WEAR_WARNING_PERCENT
    ensures AttributeVerdict(a) == Good
  {
  }

  lemma {:induction false} NoSpareLeftIsGood(a: Attribute, b: Attribute, c: Attribute)
    requires a.name == SPARE && a.id == 1 && a.value == 0 && a.rawVal == 0
    requires b.name == SPARE_THRESHOLD && b.id == 2 && b.value == 0 && b.rawVal == 10 && !IsCriticalNvme(b.name)
    requires c.id == 3 && c.value == 0 && c.rawVal == 5 && !IsCriticalNvme(c.name)
    ensures TableVerdict(Patched([a, b, c])) == Good
  {
    var patched := a.(threshold := b.rawVal);
    SecondPatchesFirst(a, b, c);
    HarmlessIsGood(patched);
    HarmlessIsGood(b);
    HarmlessIsGood(c);
    AllGoodIsGood([patched, b, c]);
  }

  lemma {:induction false} NotCritical()
    ensures !IsCriticalNvme(SPARE_THRESHOLD) && !IsCriticalNvme(WEAR)
  {
    assert |SPARE_THRESHOLD| == 25 && |WEAR| == 15;
    assert |"Critical_Warning"| == 16;
    assert |"Media_and_Data_Integrity_Errors"| == 31;
  }

  /** A drive with no spare left, of a threshold of 10 %, and 5 % wear, counts as good. */
  lemma {:induction false} UsedUpSpareIsGood()
    ensures AllParse(USED_UP) && TableVerdict(Patched(RawAttributes(USED_UP))) == Good
  {
    UsedUpAttributes();
    NotCritical();
    NoSpareLeftIsGood(USED_UP_SPARE, USED_UP_THRESHOLD, USED_UP_WEAR);
  }

  lemma {:induction false} AllGoodIsGood(attributes: seq<Attribute>)
    requires forall a | a in attributes :: AttributeVerdict(a) == Good
    ensures TableVerdict(attributes) == Good
  {
    TableVerdictIsWorstAttribute(attributes, Good);
    TableVerdictKnown(attributes);
  }
}

/** The ATA half of SmartCtlOutputParser.cpp, and `parse`. */
module SmartCtlOutputParser {
  import opened Wrappers
  import opened SmartHealth
  import opened Text
  import opened OutputParsersUtils
  import opened Simplify
  import opened NvmeHealth

  const ATA_HEADER := "Vendor Specific SMART Attributes with Thresholds:"

  function FromHeader(lines: seq<string>): seq<string> {
    if lines == [] || lines[0] == ATA_HEADER then lines else FromHeader(lines[1..])
  }

  function TakeFilled(lines: seq<string>): seq<string> {
    if lines == [] || lines[0] == "" then [] else [lines[0]] + TakeFilled(lines[1..])
  }

  /** The table: what follows the header and the column titles, up to an empty line. */
  function TableRows(lines: seq<string>): seq<string> {
    TakeFilled(Tail(Tail(FromHeader(lines))))
  }

  method SmartAttributes(output: seq<string>) returns (attributes: seq<string>)
    ensures attributes == TableRows(output)
  {
    attributes := [];
    var it := output;
    while it != [] && it[0] != ATA_HEADER
      invariant FromHeader(it) == FromHeader(output)
      decreases |it|
    {
      it := it[1..];
    }
    if it != [] {
      it := it[1..];
    }
    if it != [] {
      it := it[1..];
    }
    while it != [] && it[0] != ""
      invariant attributes + TakeFilled(it) == TableRows(output)
      decreases |it|
    {
      attributes := attributes + [it[0]];
      it := it[1..];
    }
  }

  function Threshold(token: string): Option<int> {
    if token == "---" then Some(0) else Stoi(token)
  }

  /** One table row; `None` when it is too short or a number does not parse. */
  function RowAttribute(tokens: seq<string>): Option<Attribute> {
    if |tokens| < 10 then None
    else
      var threshold, id, value := Threshold(tokens[5]), Stoull(tokens[0]), Stoi(tokens[3]);
      var worst, rawVal := Stoi(tokens[4]), Stoll(tokens[9], 0);
      if threshold.None? || id.None? || value.None? || worst.None? || rawVal.None? then None
      else Some(Attribute(id.value % 256, tokens[1], value.value, worst.value, threshold.value, rawVal.value))
  }

  function ParsedRow(row: string): Option<Attribute> {
    RowAttribute(Words(Simplified(row)))
  }

  function TableAttributes(rows: seq<string>): seq<Attribute> {
    if rows == [] then []
    else
      var a, rest := ParsedRow(rows[0]), TableAttributes(rows[1..]);
      if a.Some? then [a.value] + rest else rest
  }

  /** The loop body of parseRawTable up to the push_back. */
  method ParseRow(row: string) returns (a: Option<Attribute>)
    ensures a == ParsedRow(row)
  {
    var line := Simplify.Simplify(row);
    var tokens := SplitByWhitespace(line);
    a := RowAttribute(tokens);
  }

  method ParseRawTable(table: seq<string>) returns (attributes: seq<Attribute>)
    ensures attributes == TableAttributes(table)
  {
    attributes := [];
    var rest := table;
    while rest != []
      invariant attributes + TableAttributes(rest) == TableAttributes(table)
      decreases |rest|
    {
      var a := ParseRow(rest[0]);
      if a.Some? {
        attributes := attributes + [a.value];
      }
      rest := rest[1..];
    }
  }

  predicate IsNvmeOutput(lines: seq<string>) {
    exists line :: line in lines && Contains(line, NVME_MARKER)
  }

  /** What `parse` returns; `None` when an exception leaves it. */
  function ParsedAttributes(output: string): Option<seq<Attribute>> {
    var lines := CleanLines(output);
    if IsNvmeOutput(lines) then
      var entries := HealthEntries(lines);
      if AllParse(entries) then Some(Patched(RawAttributes(entries))) else None
    else Some(TableAttributes(TableRows(lines)))
  }

  method Parse(output: string) returns (result: Option<seq<Attribute>>)
    ensures result == ParsedAttributes(output)
  {
    var cleanLines := Clean(output);
    for i := 0 to |cleanLines|
      invariant forall line | line in cleanLines[..i] :: !Contains(line, NVME_MARKER)
    {
      if Contains(cleanLines[i], NVME_MARKER) {
        result := ParseNvmeHealth(cleanLines);
        return;
      }
    }
    assert cleanLines[..|cleanLines|] == cleanLines;
    var rows := SmartAttributes(cleanLines);
    var attributes := ParseRawTable(rows);
    result := Some(attributes);
  }
}
