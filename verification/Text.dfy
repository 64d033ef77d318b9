/**
 The string operations the Go sources rely on: white space, fields, line splitting,
 CRLF normalisation and decimal rendering. Strings are sequences of code points.
 */
module Text {

  /** White space as Go's unicode.IsSpace sees it. */
  predicate IsSpace(c: char) {
    || c in [' ', '\t', '\n', '\r', '\U{0B}', '\U{0C}', '\U{85}', '\U{A0}', '\U{1680}']
    || '\U{2000}' <= c <= '\U{200A}'
    || c in ['\U{2028}', '\U{2029}', '\U{202F}', '\U{205F}', '\U{3000}']
  }

  function TrimLeft(s: string): string {
    if s != "" && IsSpace(s[0]) then TrimLeft(s[1..]) else s
  }

  function TrimRight(s: string): string {
    if s != "" && IsSpace(s[|s| - 1]) then TrimRight(s[..|s| - 1]) else s
  }

  /** strings.TrimSpace */
  function TrimSpace(s: string): string {
    TrimRight(TrimLeft(s))
  }

  /** strings.Trim with a single-character cut set */
  function TrimChar(s: string, c: char): string
    decreases |s|
  {
    if s != "" && s[0] == c then TrimChar(s[1..], c)
    else if s != "" && s[|s| - 1] == c then TrimChar(s[..|s| - 1], c)
    else s
  }

  function WordLength(s: string): (n: nat)
    ensures n <= |s|
    ensures s != "" && !IsSpace(s[0]) ==> n > 0
  {
    if s == "" || IsSpace(s[0]) then 0 else 1 + WordLength(s[1..])
  }

  lemma TrimLeftShortens(s: string)
    ensures |TrimLeft(s)| <= |s|
    ensures TrimLeft(s) != "" ==> !IsSpace(TrimLeft(s)[0])
  {}

  /** strings.Fields: the maximal runs of characters that are not white space */
  function Fields(s: string): seq<string>
    decreases |s|
  {
    TrimLeftShortens(s);
    var t := TrimLeft(s);
    if t == "" then [] else [t[..WordLength(t)]] + Fields(t[WordLength(t)..])
  }

  /** strings.ReplaceAll(s, "\r\n", "\n") */
  function Normalize(s: string): string {
    if s == "" then ""
    else if |s| >= 2 && s[0] == '\r' && s[1] == '\n' then "\n" + Normalize(s[2..])
    else [s[0]] + Normalize(s[1..])
  }

  /** strings.Split(s, "\n") */
  function Split(s: string): (lines: seq<string>)
    ensures |lines| > 0
  {
    if s == "" then [""]
    else
      var rest := Split(s[1..]);
      if s[0] == '\n' then [""] + rest else [[s[0]] + rest[0]] + rest[1..]
  }

  /** The lines a source text is read as: CRLF becomes LF, then the text is cut at each LF. */
  function Lines(s: string): (lines: seq<string>)
    ensures |lines| > 0
  {
    Split(Normalize(s))
  }

  /** Every line followed by a line feed. */
  function Unlines(lines: seq<string>): string {
    if lines == [] then "" else lines[0] + "\n" + Unlines(lines[1..])
  }

  function Join(lines: seq<string>): string {
    if lines == [] then ""
    else if |lines| == 1 then lines[0]
    else lines[0] + "\n" + Join(lines[1..])
  }

  predicate EndsInCR(line: string) {
    line != "" && line[|line| - 1] == '\r'
  }

  function StripCR(line: string): string {
    if EndsInCR(line) then line[..|line| - 1] else line
  }

  function StripCRs(lines: seq<string>): (r: seq<string>)
    ensures |r| == |lines|
    ensures forall i :: 0 <= i < |lines| ==> r[i] == StripCR(lines[i])
  {
    if lines == [] then [] else [StripCR(lines[0])] + StripCRs(lines[1..])
  }

  // ----- splitting -----

  lemma {:induction false} SplitLine(line: string, rest: string)
    requires '\n' !in line
    ensures Split(line + "\n" + rest) == [line] + Split(rest)
  {
    if line == "" {
      assert (line + "\n" + rest)[1..] == rest;
    } else {
      SplitLine(line[1..], rest);
      assert (line + "\n" + rest)[1..] == line[1..] + "\n" + rest;
      assert line == [line[0]] + line[1..];
    }
  }

  lemma {:induction false} NormalizeLine(line: string, rest: string)
    requires '\n' !in line
    ensures Normalize(line + "\n" + rest) == StripCR(line) + "\n" + Normalize(rest)
  {
    var s := line + "\n" + rest;
    if line == "" {
      assert s[1..] == rest;
    } else if line == "\r" {
      assert s[2..] == rest;
    } else {
      NormalizeLine(line[1..], rest);
      assert s[1..] == line[1..] + "\n" + rest;
      assert s[0] == line[0] && s[1] == if |line| == 1 then '\n' else line[1];
      StripTail(line);
      assert Normalize(s) == [line[0]] + Normalize(s[1..]);
    }
  }

  lemma StripTail(line: string)
    requires line != "" && line != "\r"
    ensures StripCR(line) == [line[0]] + StripCR(line[1..])
  {
  }

  predicate NoLineFeed(lines: seq<string>) {
    forall l :: l in lines ==> '\n' !in l
  }

  /** Reading back a printed list of lines loses one trailing CR per line and gains one empty line. */
  lemma {:induction false} LinesOfUnlines(lines: seq<string>)
    requires NoLineFeed(lines)
    ensures Lines(Unlines(lines)) == StripCRs(lines) + [""]
  {
    if lines != [] {
      var rest := Unlines(lines[1..]);
      NormalizeLine(lines[0], rest);
      SplitLine(StripCR(lines[0]), Normalize(rest));
      LinesOfUnlines(lines[1..]);
    }
  }

  lemma {:induction false} SplitHasNoLineFeed(s: string)
    ensures NoLineFeed(Split(s))
  {
    if s != "" {
      SplitHasNoLineFeed(s[1..]);
    }
  }

  // ----- blank text -----

  predicate AllSpace(s: string) {
    forall i :: 0 <= i < |s| ==> IsSpace(s[i])
  }

  lemma {:induction false} TrimLeftBlank(s: string)
    requires AllSpace(TrimLeft(s))
    ensures AllSpace(s)
  {
    if s != "" && IsSpace(s[0]) {
      TrimLeftBlank(s[1..]);
      assert forall i :: 1 <= i < |s| ==> s[i] == s[1..][i - 1];
    }
  }

  lemma {:induction false} TrimRightBlank(s: string)
    requires TrimRight(s) == ""
    ensures AllSpace(s)
  {
    if s != "" {
      TrimRightBlank(s[..|s| - 1]);
      assert forall i :: 0 <= i < |s| - 1 ==> s[i] == s[..|s| - 1][i];
    }
  }

  lemma BlankIsAllSpace(s: string)
    requires TrimSpace(s) == ""
    ensures AllSpace(s)
  {
    TrimRightBlank(TrimLeft(s));
    TrimLeftBlank(s);
  }

  lemma {:induction false} SplitOfSpaces(s: string)
    requires AllSpace(s)
    ensures forall l :: l in Split(s) ==> AllSpace(l)
  {
    if s != "" {
      SplitOfSpaces(s[1..]);
      var rest := Split(s[1..]);
      assert rest[0] in rest;
      assert AllSpace([s[0]] + rest[0]);
    }
  }

  lemma {:induction false} TrimLeftPadding(left: string, s: string)
    requires AllSpace(left)
    ensures TrimLeft(left + s) == TrimLeft(s)
  {
    hide IsSpace;
    if left == "" {
      assert left + s == s;
    } else {
      assert IsSpace(left[0]) && (left + s)[1..] == left[1..] + s;
      TrimLeftPadding(left[1..], s);
    }
  }

  lemma {:induction false} TrimRightPadding(s: string, right: string)
    requires AllSpace(right)
    ensures TrimRight(s + right) == TrimRight(s)
  {
    hide IsSpace;
    if right == "" {
      assert s + right == s;
    } else {
      var n, whole := |right| - 1, s + right;
      assert whole[|whole| - 1] == right[n] && whole[..|whole| - 1] == s + right[..n];
      TrimRightPadding(s, right[..n]);
    }
  }

  /** Trimming takes away the white space around a text, all of it and nothing else. */
  lemma TrimsPadding(left: string, s: string, right: string)
    requires AllSpace(left) && AllSpace(right) && s != "" && !IsSpace(s[0]) && !IsSpace(s[|s| - 1])
    ensures TrimSpace(left + s + right) == s
  {
    hide IsSpace;
    assert left + s + right == left + (s + right);
    TrimLeftPadding(left, s + right);
    assert (s + right)[0] == s[0];
    TrimRightPadding(s, right);
  }

  // ----- decimal numerals -----

  const DIGITS := "0123456789"

  /** The decimal rendering of a natural number, as fmt's %d prints it. */
  function Decimal(n: nat): string {
    if n < 10 then [DIGITS[n]] else Decimal(n / 10) + [DIGITS[n % 10]]
  }

  lemma {:induction false} DecimalDigits(n: nat)
    ensures forall i :: 0 <= i < |Decimal(n)| ==> Decimal(n)[i] in DIGITS
    ensures |Decimal(n)| > 0
    ensures n >= 10 ==> |Decimal(n)| > 1
  {
    if n >= 10 {
      DecimalDigits(n / 10);
    }
  }

  /** The number a string of digits stands for. */
  function Number(s: string): int {
    if s == "" then 0 else Number(s[..|s| - 1]) * 10 + (s[|s| - 1] as int - '0' as int)
  }

  lemma {:induction false} NumberOfDecimal(n: nat)
    ensures Number(Decimal(n)) == n
  {
    var s := Decimal(n);
    if n >= 10 {
      NumberOfDecimal(n / 10);
      assert s[..|s| - 1] == Decimal(n / 10);
      DigitValue(n % 10);
    } else {
      DigitValue(n);
    }
  }

  lemma DigitValue(d: nat)
    requires d < 10
    ensures DIGITS[d] as int - '0' as int == d
  {
  }

  lemma DigitInjective(a: nat, b: nat)
    requires a < 10 && b < 10 && DIGITS[a] == DIGITS[b]
    ensures a == b
  {}

  lemma {:induction false} DecimalInjective(a: nat, b: nat)
    requires Decimal(a) == Decimal(b)
    ensures a == b
  {
    DecimalDigits(a);
    DecimalDigits(b);
    if a < 10 {
      DigitInjective(a, b);
    } else {
      var p, q := Decimal(a), Decimal(b);
      assert p[..|p| - 1] == Decimal(a / 10) && q[..|q| - 1] == Decimal(b / 10);
      assert p[|p| - 1] == q[|q| - 1];
      DecimalInjective(a / 10, b / 10);
      DigitInjective(a % 10, b % 10);
    }
  }

  /** A numeral followed by an underscore can be read back whatever follows. */
  lemma NumeralPrefix(a: nat, b: nat, x: string, y: string)
    requires Decimal(a) + "_" + x == Decimal(b) + "_" + y
    ensures a == b
  {
    DecimalDigits(a);
    DecimalDigits(b);
    var p, q := Decimal(a), Decimal(b);
    var s := p + "_" + x;
    assert s == q + "_" + y;
    assert s[|p|] == '_' && s[|q|] == '_';
    assert s[..|p|] == p && s[..|q|] == q;
    assert forall i :: 0 <= i < |p| ==> s[i] in DIGITS;
    DecimalInjective(a, b);
  }

  // ----- order -----

  /** Strict lexicographic order. */
  predicate Less(a: string, b: string) {
    b != "" && (a == "" || a[0] < b[0] || (a[0] == b[0] && Less(a[1..], b[1..])))
  }

  lemma {:induction false} LessTransitive(a: string, b: string, c: string)
    requires Less(a, b) && Less(b, c)
    ensures Less(a, c)
  {
    if a != "" && a[0] == b[0] == c[0] { LessTransitive(a[1..], b[1..], c[1..]); }
  }

  lemma {:induction false} LessTotal(a: string, b: string)
    ensures a == b || Less(a, b) || Less(b, a)
  {
    if a != "" && b != "" && a[0] == b[0] {
      LessTotal(a[1..], b[1..]);
      assert a == [a[0]] + a[1..] && b == [b[0]] + b[1..];
    }
  }

  lemma {:induction false} LessStrict(a: string, b: string)
    requires Less(a, b)
    ensures a != b && !Less(b, a)
  {
    if a != "" && a[0] == b[0] { LessStrict(a[1..], b[1..]); }
  }
}
