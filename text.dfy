/** The JavaScript string operations the backend and the editor rely on, with
    the semantics of the ECMAScript built-ins they call: `trim`, `startsWith`,
    `split` with a one-character separator, the last element of a split,
    `split(/\s+/)`'s last element, and `parseInt` with no radix. */
module Text {
  import opened Wrappers

  /** The WhiteSpace and LineTerminator characters of ECMAScript: exactly the
      characters `trim` removes, `parseInt` skips and `\s` matches. */
  predicate IsWhitespace(c: char) {
    || c == '\t' || c == '\n' || c == '\U{B}' || c == '\U{C}' || c == '\r' || c == ' '
    || c == '\U{A0}' || c == '\U{1680}' || ('\U{2000}' <= c <= '\U{200A}')
    || c == '\U{2028}' || c == '\U{2029}' || c == '\U{202F}' || c == '\U{205F}'
    || c == '\U{3000}' || c == '\U{FEFF}'
  }

  /** `s.startsWith(prefix)`. */
  predicate StartsWith(s: string, prefix: string) {
    |prefix| <= |s| && s[..|prefix|] == prefix
  }

  /** A prefix without whitespace that a word does not start with is not
      gained by appending whitespace and more text to the word. */
  lemma NotStartsWithAcross(word: string, sep: char, rest: string, prefix: string)
    requires !StartsWith(word, prefix) && IsWhitespace(sep)
    requires forall k :: 0 <= k < |prefix| ==> !IsWhitespace(prefix[k])
    ensures !StartsWith(word + [sep] + rest, prefix)
  {
    var line := word + [sep] + rest;
    if |prefix| <= |line| {
      if |prefix| <= |word| {
        assert line[..|prefix|] == word[..|prefix|];
      } else {
        assert line[..|prefix|][|word|] == sep;
      }
    }
  }

  /** `s.trimStart()`: the suffix of `s` left after its leading whitespace. */
  function TrimStart(s: string): (r: string)
    ensures |r| <= |s|
    ensures r == [] || !IsWhitespace(r[0])
  {
    if |s| > 0 && IsWhitespace(s[0]) then TrimStart(s[1..]) else s
  }

  /** `trimStart` keeps a suffix, and what it removes is whitespace. */
  lemma {:induction false} TrimStartDropsWhitespace(s: string)
    ensures TrimStart(s) == s[|s| - |TrimStart(s)|..]
    ensures forall k :: 0 <= k < |s| - |TrimStart(s)| ==> IsWhitespace(s[k])
  {
    if |s| > 0 && IsWhitespace(s[0]) {
      TrimStartDropsWhitespace(s[1..]);
      assert forall k :: 1 <= k < |s| ==> s[k] == s[1..][k - 1];
    }
  }

  /** `s.trimEnd()`: the prefix of `s` left after its trailing whitespace. */
  function TrimEnd(s: string): (r: string)
    ensures |r| <= |s|
    ensures r == [] || !IsWhitespace(r[|r| - 1])
  {
    if |s| > 0 && IsWhitespace(s[|s| - 1]) then TrimEnd(s[..|s| - 1]) else s
  }

  /** `trimEnd` keeps a prefix, and what it removes is whitespace. */
  lemma {:induction false} TrimEndDropsWhitespace(s: string)
    ensures TrimEnd(s) == s[..|TrimEnd(s)|]
    ensures forall k :: |TrimEnd(s)| <= k < |s| ==> IsWhitespace(s[k])
  {
    if |s| > 0 && IsWhitespace(s[|s| - 1]) {
      TrimEndDropsWhitespace(s[..|s| - 1]);
    }
  }

  /** `s.trim()`: the middle of `s` between its leading and its trailing whitespace. */
  function Trim(s: string): (r: string)
    ensures r == [] || (!IsWhitespace(r[0]) && !IsWhitespace(r[|r| - 1]))
  {
    var t := TrimStart(s);
    TrimEndDropsWhitespace(t);
    TrimEnd(t)
  }

  /** A string trims to nothing exactly when all of it is whitespace. */
  lemma TrimEmpty(s: string)
    ensures Trim(s) == [] <==> forall k :: 0 <= k < |s| ==> IsWhitespace(s[k])
  {
    var t := TrimStart(s);
    var i := |s| - |t|;
    TrimStartDropsWhitespace(s);
    TrimEndDropsWhitespace(t);
    if Trim(s) != [] {
      assert s[i] == t[0];
    }
  }

  /** Trimming twice is trimming once. */
  lemma TrimIdempotent(s: string)
    ensures Trim(Trim(s)) == Trim(s)
  {
    var r := Trim(s);
    if r != [] {
      assert TrimStart(r) == r;
      assert TrimEnd(r) == r;
    }
  }

  /** JavaScript's truthiness of `s.trim()`: false for an all-whitespace string. */
  predicate IsBlank(s: string) {
    Trim(s) == ""
  }

  /** `s.split(c)`: the pieces of `s` between occurrences of `c`, in order;
      there is always at least one piece. Read from the right. */
  function Split(s: string, c: char): (parts: seq<string>)
    ensures |parts| >= 1
  {
    if |s| == 0 then [""] else Extend(Split(s[..|s| - 1], c), s[|s| - 1], c)
  }

  /** The pieces after one more character `d`: a separator opens a new piece,
      anything else extends the last one. */
  function Extend(parts: seq<string>, d: char, c: char): (r: seq<string>)
    requires |parts| >= 1
    ensures |r| >= 1
  {
    if d == c then parts + [""] else parts[..|parts| - 1] + [parts[|parts| - 1] + [d]]
  }

  /** Extending touches only the last piece. */
  lemma ExtendAppend(a: seq<string>, b: seq<string>, d: char, c: char)
    requires |b| >= 1
    ensures Extend(a + b, d, c) == a + Extend(b, d, c)
  {
    if d != c {
      assert (a + b)[..|a + b| - 1] == a + b[..|b| - 1];
    }
  }

  /** No piece contains the separator. */
  lemma {:induction false} SplitPieces(s: string, c: char)
    ensures forall k :: 0 <= k < |Split(s, c)| ==> c !in Split(s, c)[k]
  {
    if |s| > 0 {
      SplitPieces(s[..|s| - 1], c);
    }
  }

  /** `parts.join(c)`. */
  function Join(parts: seq<string>, c: char): string {
    if |parts| == 0 then ""
    else if |parts| == 1 then parts[0]
    else parts[0] + [c] + Join(parts[1..], c)
  }

  /** Splitting a string one character longer. */
  lemma SplitSnoc(s: string, d: char, c: char)
    ensures Split(s + [d], c) == Extend(Split(s, c), d, c)
  {
    assert (s + [d])[..|s|] == s;
  }

  /** A separator splits the string into the pieces of each side. */
  lemma {:induction false} SplitAround(x: string, c: char, y: string)
    ensures Split(x + [c] + y, c) == Split(x, c) + Split(y, c)
    decreases |y|
  {
    if |y| == 0 {
      assert x + [c] + y == x + [c];
      SplitSnoc(x, c, c);
    } else {
      var y', d := y[..|y| - 1], y[|y| - 1];
      SplitAround(x, c, y');
      assert x + [c] + y == (x + [c] + y') + [d];
      assert y == y' + [d];
      SplitSnoc(x + [c] + y', d, c);
      SplitSnoc(y', d, c);
      ExtendAppend(Split(x, c), Split(y', c), d, c);
    }
  }

  /** A string without the separator is a single piece. */
  lemma {:induction false} SplitNone(s: string, c: char)
    requires c !in s
    ensures Split(s, c) == [s]
  {
    if |s| > 0 {
      assert s[|s| - 1] in s;
      assert c !in s[..|s| - 1];
      SplitNone(s[..|s| - 1], c);
      assert s[..|s| - 1] + [s[|s| - 1]] == s;
    }
  }

  /** Splitting a join of separator-free pieces gives back the pieces. */
  lemma {:induction false} SplitJoin(parts: seq<string>, c: char)
    requires |parts| >= 1
    requires forall k :: 0 <= k < |parts| ==> c !in parts[k]
    ensures Split(Join(parts, c), c) == parts
  {
    SplitNone(parts[0], c);
    if |parts| > 1 {
      SplitJoin(parts[1..], c);
      SplitAround(parts[0], c, Join(parts[1..], c));
    }
  }

  /** The text after the last `c` in `s`, or all of `s` when `c` does not occur. */
  function AfterLast(s: string, c: char): (r: string)
    ensures c !in r
    ensures |r| <= |s| && r == s[|s| - |r|..]
    ensures |r| < |s| ==> s[|s| - |r| - 1] == c
  {
    if |s| == 0 || s[|s| - 1] == c then ""
    else AfterLast(s[..|s| - 1], c) + [s[|s| - 1]]
  }

  /** Without an occurrence of `c`, all of `s` comes after the last one. */
  lemma AfterLastNone(s: string, c: char)
    requires c !in s
    ensures AfterLast(s, c) == s
  {
    assert forall k :: 0 <= k < |s| ==> s[k] != c;
  }

  /** What follows the last `c` of `a + [c] + b` is `b`, when `b` has no `c`. */
  lemma AfterLastOf(a: string, c: char, b: string)
    requires c !in b
    ensures AfterLast(a + [c] + b, c) == b
  {
    var s := (a + [c]) + b;
    assert s[|a + [c]|..] == b;
    var r := AfterLast(s, c);
    assert |r| <= |b| by {
      assert forall j :: |s| - |r| <= j < |s| ==> s[j] in r;
      assert s[|a|] == c;
    }
    assert |r| >= |b| by {
      assert forall j :: |a| < j < |s| ==> s[j] in b;
    }
  }

  /** The last piece of `s.split(c)` (what `pop()` returns) is the text after the last `c`. */
  lemma {:induction false} LastOfSplit(s: string, c: char)
    ensures Split(s, c)[|Split(s, c)| - 1] == AfterLast(s, c)
  {
    if |s| > 0 {
      LastOfSplit(s[..|s| - 1], c);
    }
  }

  /** The last element of `s.split(/\s+/)`: the text after the last whitespace
      character of `s` (empty when `s` ends in whitespace). */
  function LastField(s: string): (r: string)
    ensures |r| <= |s| && r == s[|s| - |r|..]
    ensures |r| < |s| ==> IsWhitespace(s[|s| - |r| - 1])
  {
    if |s| == 0 || IsWhitespace(s[|s| - 1]) then ""
    else LastField(s[..|s| - 1]) + [s[|s| - 1]]
  }

  /** The last field holds no whitespace. */
  lemma {:induction false} LastFieldNoWhitespace(s: string)
    ensures forall k :: |s| - |LastField(s)| <= k < |s| ==> !IsWhitespace(s[k])
  {
    if |s| > 0 && !IsWhitespace(s[|s| - 1]) {
      LastFieldNoWhitespace(s[..|s| - 1]);
    }
  }

  /** The last field of a line is what follows its last whitespace character. */
  lemma LastFieldFrom(s: string, i: nat, rest: string)
    requires i < |s| && IsWhitespace(s[i]) && rest == s[i + 1..]
    requires forall k :: 0 <= k < |rest| ==> !IsWhitespace(rest[k])
    ensures LastField(s) == rest
  {
    var r := LastField(s);
    assert |r| <= |rest| by {
      LastFieldNoWhitespace(s);
    }
    assert |r| >= |rest| by {
      assert forall j :: i < j < |s| ==> s[j] == rest[j - i - 1];
    }
  }

  /** The same, for a line given as the text before and after that character. */
  lemma LastFieldAfter(a: string, c: char, b: string)
    requires IsWhitespace(c)
    requires forall k :: 0 <= k < |b| ==> !IsWhitespace(b[k])
    ensures LastField(a + [c] + b) == b
  {
    var s := (a + [c]) + b;
    assert s[|a + [c]|..] == b;
    LastFieldFrom(s, |a|, b);
  }

  /** The value of `c` as a digit of base `radix` (10 or 16), if it is one. */
  function DigitValue(c: char, radix: nat): Option<nat> {
    if '0' <= c <= '9' then Some(c as int - '0' as int)
    else if radix == 16 && 'a' <= c <= 'f' then Some(c as int - 'a' as int + 10)
    else if radix == 16 && 'A' <= c <= 'F' then Some(c as int - 'A' as int + 10)
    else None
  }

  predicate IsDigit(c: char, radix: nat) {
    DigitValue(c, radix).Some?
  }

  /** The longest prefix of `s` made of digits of base `radix`. */
  function DigitPrefix(s: string, radix: nat): (r: string)
    ensures |r| <= |s| && r == s[..|r|]
    ensures forall k :: 0 <= k < |r| ==> IsDigit(r[k], radix)
    ensures |r| < |s| ==> !IsDigit(s[|r|], radix)
  {
    if |s| > 0 && IsDigit(s[0], radix) then [s[0]] + DigitPrefix(s[1..], radix) else ""
  }

  /** A string made only of digits is its own longest digit prefix. */
  lemma DigitPrefixOfDigits(s: string, radix: nat)
    requires forall k :: 0 <= k < |s| ==> IsDigit(s[k], radix)
    ensures DigitPrefix(s, radix) == s
  {
  }

  /** The number the digits `ds` denote in base `radix`, most significant first. */
  function DigitsValue(ds: string, radix: nat): nat
    requires forall k :: 0 <= k < |ds| ==> IsDigit(ds[k], radix)
  {
    if |ds| == 0 then 0
    else
      assert IsDigit(ds[|ds| - 1], radix);
      DigitsValue(ds[..|ds| - 1], radix) * radix + DigitValue(ds[|ds| - 1], radix).value
  }

  /** `parseInt(s)` with no radix: skip leading whitespace, take an optional sign
      and an optional `0x`/`0X` prefix (which selects base 16), then the longest
      run of digits. No digits at all gives `None`, JavaScript's `NaN`. */
  function ParseInt(s: string): Option<int> {
    var t := TrimStart(s);
    var negative := |t| > 0 && t[0] == '-';
    var unsigned := if |t| > 0 && (t[0] == '-' || t[0] == '+') then t[1..] else t;
    match ParseMagnitude(unsigned)
    case None => None
    case Some(m) => Some(if negative then -(m as int) else m as int)
  }

  /** The unsigned part of `parseInt`: an optional `0x`/`0X` prefix choosing
      base 16 (base 10 otherwise), then the longest run of digits, if any. */
  function ParseMagnitude(u: string): Option<nat> {
    var hex := |u| >= 2 && u[0] == '0' && (u[1] == 'x' || u[1] == 'X');
    var radix := if hex then 16 else 10;
    var digits := DigitPrefix(if hex then u[2..] else u, radix);
    if digits == "" then None else Some(DigitsValue(digits, radix))
  }

  function DigitChar(d: nat): (c: char)
    requires d < 10
    ensures DigitValue(c, 10) == Some(d)
  {
    ('0' as int + d) as char
  }

  /** The decimal notation of `n`, as `stat -c %Y` prints a timestamp. */
  function Decimal(n: nat): (s: string)
    ensures |s| >= 1
    ensures forall k :: 0 <= k < |s| ==> '0' <= s[k] <= '9'
  {
    if n < 10 then [DigitChar(n)] else Decimal(n / 10) + [DigitChar(n % 10)]
  }

  lemma {:induction false} DecimalNoLeadingZero(n: nat)
    requires n >= 1
    ensures Decimal(n)[0] != '0'
  {
    if n >= 10 {
      DecimalNoLeadingZero(n / 10);
    }
  }

  lemma {:induction false} DecimalValue(n: nat)
    ensures forall k :: 0 <= k < |Decimal(n)| ==> IsDigit(Decimal(n)[k], 10)
    ensures DigitsValue(Decimal(n), 10) == n
  {
    var s := Decimal(n);
    if n >= 10 {
      DecimalValue(n / 10);
      assert s[..|s| - 1] == Decimal(n / 10);
    }
  }

  /** Digits that do not open with `0x` are read in base 10 as a whole. */
  lemma MagnitudeOfDigits(s: string)
    requires |s| >= 1 && forall k :: 0 <= k < |s| ==> IsDigit(s[k], 10)
    requires |s| >= 2 ==> s[0] != '0'
    ensures ParseMagnitude(s) == Some(DigitsValue(s, 10))
  {
    DigitPrefixOfDigits(s, 10);
  }

  /** Text that opens with a decimal digit has no whitespace or sign for
      `parseInt` to skip: its value is the magnitude read from the start. */
  lemma ParseIntUnsigned(s: string)
    requires |s| >= 1 && '0' <= s[0] <= '9'
    ensures ParseMagnitude(s).Some? ==> ParseInt(s) == Some(ParseMagnitude(s).value)
  {
    assert !IsWhitespace(s[0]);
    assert TrimStart(s) == s;
    assert s[0] != '-' && s[0] != '+';
  }

  /** `parseInt` reads back the decimal notation of every natural number. */
  lemma ParseIntDecimal(n: nat)
    ensures ParseInt(Decimal(n)) == Some(n)
  {
    if |Decimal(n)| >= 2 {
      DecimalNoLeadingZero(n);
    }
    DecimalValue(n);
    MagnitudeOfDigits(Decimal(n));
    ParseIntUnsigned(Decimal(n));
  }
}
