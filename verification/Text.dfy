/**
  Python string operations used by several modules: `splitlines`, `strip`, `join`,
  decimal rendering and `int(...)`.
 */
module Text {
  import opened Wrappers

  /** The characters at which Python's `str.splitlines` ends a line. */
  predicate IsLineBreak(c: char) {
    c in {'\n', '\r', '\U{000b}', '\U{000c}', '\U{001c}', '\U{001d}', '\U{001e}', '\U{0085}', '\U{2028}', '\U{2029}'}
  }

  /** The characters Python's `str.strip` removes. */
  predicate IsSpace(c: char) {
    || IsLineBreak(c)
    || c in {'\t', ' ', '\U{001f}', '\U{00a0}', '\U{1680}', '\U{202f}', '\U{205f}', '\U{3000}'}
    || '\U{2000}' <= c <= '\U{200a}'
  }

  predicate SingleLine(s: string) {
    forall i :: 0 <= i < |s| ==> !IsLineBreak(s[i])
  }

  /** `s.splitlines()`: a carriage return followed by a line feed is one break, and a
      final break does not open an empty line. */
  function SplitLines(s: string): seq<string> {
    if s == [] then []
    else if |s| >= 2 && s[0] == '\r' && s[1] == '\n' then [""] + SplitLines(s[2..])
    else if IsLineBreak(s[0]) then [""] + SplitLines(s[1..])
    else
      var rest := SplitLines(s[1..]);
      if rest == [] then [[s[0]]] else [[s[0]] + rest[0]] + rest[1..]
  }

  function LStrip(s: string): string {
    if s != [] && IsSpace(s[0]) then LStrip(s[1..]) else s
  }

  function RStrip(s: string): string {
    if s != [] && IsSpace(s[|s| - 1]) then RStrip(s[..|s| - 1]) else s
  }

  function Strip(s: string): string {
    RStrip(LStrip(s))
  }

  /** Neither end of `s` is whitespace (the empty string is trimmed). */
  predicate Trimmed(s: string) {
    s != [] ==> !IsSpace(s[0]) && !IsSpace(s[|s| - 1])
  }

  predicate StartsWith(s: string, prefix: string) {
    prefix <= s
  }

  predicate EndsWith(s: string, suffix: string) {
    |suffix| <= |s| && s[|s| - |suffix|..] == suffix
  }

  /** `separator.join(lines)` */
  function Join(separator: string, lines: seq<string>): string {
    if lines == [] then ""
    else if |lines| == 1 then lines[0]
    else lines[0] + separator + Join(separator, lines[1..])
  }

  function Digit(d: nat): char
    requires d < 10
  {
    ['0', '1', '2', '3', '4', '5', '6', '7', '8', '9'][d]
  }

  /** `str(n)` of a non-negative integer. */
  function Decimal(n: nat): (s: string)
    ensures s != []
  {
    if n < 10 then [Digit(n)] else Decimal(n / 10) + [Digit(n % 10)]
  }

  predicate IsDigit(c: char) {
    '0' <= c <= '9'
  }

  /** The value of a digit string with optional single underscores between digits;
      nothing when the text is not of that form. */
  function ParseDigits(s: string): Option<int> {
    if s == [] || !IsDigit(s[|s| - 1]) then None
    else
      var last := (s[|s| - 1] as int) - ('0' as int);
      if |s| == 1 then Some(last)
      else
        var front := if s[|s| - 2] == '_' then s[..|s| - 2] else s[..|s| - 1];
        match ParseDigits(front)
        case None => None
        case Some(n) => Some(10 * n + last)
  }

  /** `int(s)` for ASCII digits; `None` stands for the `ValueError`. */
  function ParseInt(s: string): Option<int> {
    var t := Strip(s);
    var signed := t != [] && (t[0] == '+' || t[0] == '-');
    match ParseDigits(if signed then t[1..] else t)
    case None => None
    case Some(n) => Some(if signed && t[0] == '-' then -n else n)
  }

  lemma StripTrimmed(s: string)
    requires Trimmed(s)
    ensures Strip(s) == s
  {}

  lemma {:induction false} LStripBlanks(blanks: string, rest: string)
    requires forall i :: 0 <= i < |blanks| ==> IsSpace(blanks[i])
    requires rest != "" ==> !IsSpace(rest[0])
    ensures LStrip(blanks + rest) == rest
  {
    if blanks == "" {
      assert blanks + rest == rest;
    } else {
      assert (blanks + rest)[1..] == blanks[1..] + rest;
      LStripBlanks(blanks[1..], rest);
    }
  }

  lemma {:induction false} RStripBlanks(core: string, blanks: string)
    requires forall i :: 0 <= i < |blanks| ==> IsSpace(blanks[i])
    requires core != "" ==> !IsSpace(core[|core| - 1])
    ensures RStrip(core + blanks) == core
  {
    if blanks == "" {
      assert core + blanks == core;
    } else {
      assert (core + blanks)[..|core + blanks| - 1] == core + blanks[..|blanks| - 1];
      RStripBlanks(core, blanks[..|blanks| - 1]);
    }
  }

  /** `strip` removes blanks at both ends and nothing else. */
  lemma StripMeans(before: string, core: string, after: string)
    requires forall i :: 0 <= i < |before| ==> IsSpace(before[i])
    requires forall i :: 0 <= i < |after| ==> IsSpace(after[i])
    requires core != "" && Trimmed(core)
    ensures Strip(before + core + after) == core
  {
    assert before + core + after == before + (core + after);
    LStripBlanks(before, core + after);
    RStripBlanks(core, after);
  }

  lemma {:induction false} ParseDecimal(n: nat)
    ensures ParseDigits(Decimal(n)) == Some(n)
    ensures forall i :: 0 <= i < |Decimal(n)| ==> IsDigit(Decimal(n)[i])
  {
    if n >= 10 {
      ParseDecimal(n / 10);
      assert Decimal(n)[..|Decimal(n)| - 1] == Decimal(n / 10);
    }
  }

  lemma DigitIsInk(c: char)
    requires IsDigit(c)
    ensures !IsSpace(c) && c != '+' && c != '-'
  {}

  /** `int(str(n)) == n` */
  lemma ParseIntOfDecimal(n: nat)
    ensures ParseInt(Decimal(n)) == Some(n)
  {
    ParseDecimal(n);
    var s := Decimal(n);
    DigitIsInk(s[0]);
    DigitIsInk(s[|s| - 1]);
    StripTrimmed(s);
  }

  /** A sign before the digits of a number is read as one. */
  lemma ParseSigned(n: int)
    requires n >= 0
    ensures ParseInt("-" + Decimal(n)) == Some(-n) && ParseInt("+" + Decimal(n)) == Some(n)
  {
    var s := Decimal(n);
    ParseDecimal(n);
    DigitIsInk(s[|s| - 1]);
    assert ("-" + s)[1..] == s && ("+" + s)[1..] == s;
    StripTrimmed("-" + s);
    StripTrimmed("+" + s);
  }

  /** Text with a character that is no digit and no underscore is no number. */
  lemma {:induction false} NoNumber(s: string, i: nat)
    requires i < |s| && !IsDigit(s[i]) && s[i] != '_'
    ensures ParseDigits(s) == None
  {
    if IsDigit(s[|s| - 1]) && |s| > 1 {
      var front := if s[|s| - 2] == '_' then s[..|s| - 2] else s[..|s| - 1];
      NoNumber(front, i);
    }
  }

  lemma {:induction false} SplitFirstLine(a: string, b: string)
    requires SingleLine(a)
    ensures SplitLines(a + "\n" + b) == [a] + SplitLines(b)
  {
    var s := a + "\n" + b;
    if a == [] {
      assert s[1..] == b;
    } else {
      SplitFirstLine(a[1..], b);
      assert s[1..] == a[1..] + "\n" + b;
      assert SplitLines(s[1..]) == [a[1..]] + SplitLines(b);
      assert [a[0]] + a[1..] == a;
    }
  }

  /** A carriage return with a line feed ends one line. */
  lemma {:induction false} SplitCrLf(a: string, b: string)
    requires SingleLine(a)
    ensures SplitLines(a + "\r\n" + b) == [a] + SplitLines(b)
  {
    var s := a + "\r\n" + b;
    if a == [] {
      assert s[2..] == b;
    } else {
      SplitCrLf(a[1..], b);
      assert s[1..] == a[1..] + "\r\n" + b;
      assert SplitLines(s[1..]) == [a[1..]] + SplitLines(b);
      assert [a[0]] + a[1..] == a;
    }
  }

  lemma {:induction false} SplitSingleLine(a: string)
    requires SingleLine(a) && a != []
    ensures SplitLines(a) == [a]
  {
    if |a| == 1 {
      assert SplitLines(a[1..]) == [];
      assert SplitLines(a) == [[a[0]]] && [a[0]] == a;
    } else {
      SplitSingleLine(a[1..]);
      var rest := SplitLines(a[1..]);
      assert rest[0] == a[1..] && rest[1..] == [];
      assert [a[0]] + a[1..] == a;
      assert [[a[0]] + rest[0]] + rest[1..] == [a];
    }
  }

  /** Splitting undoes joining, for lines that hold no break and do not end in an empty line. */
  lemma {:induction false} SplitOfJoin(lines: seq<string>)
    requires forall i :: 0 <= i < |lines| ==> SingleLine(lines[i])
    requires lines != [] ==> lines[|lines| - 1] != []
    ensures SplitLines(Join("\n", lines)) == lines
  {
    if lines == [] {
    } else if |lines| == 1 {
      SplitSingleLine(lines[0]);
    } else {
      SplitOfJoin(lines[1..]);
      SplitFirstLine(lines[0], Join("\n", lines[1..]));
      assert Join("\n", lines) == lines[0] + "\n" + Join("\n", lines[1..]);
    }
  }

  lemma {:induction false} JoinEnds(separator: string, lines: seq<string>)
    requires lines != [] && lines[0] != [] && lines[|lines| - 1] != []
    ensures Join(separator, lines) != []
    ensures Join(separator, lines)[0] == lines[0][0]
    ensures var s := Join(separator, lines); var last := lines[|lines| - 1]; s[|s| - 1] == last[|last| - 1]
  {
    if |lines| > 1 {
      JoinLastChar(separator, lines);
    }
  }

  lemma {:induction false} JoinLastChar(separator: string, lines: seq<string>)
    requires lines != [] && lines[|lines| - 1] != []
    ensures var s := Join(separator, lines); var last := lines[|lines| - 1]; s != [] && s[|s| - 1] == last[|last| - 1]
  {
    if |lines| > 1 {
      JoinLastChar(separator, lines[1..]);
    }
  }
}
