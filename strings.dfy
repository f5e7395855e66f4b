/** Text helpers with the semantics of the Rust standard-library operations the
    installer relies on: `char::is_whitespace`, `str::trim`, `str::lines`,
    `str::split_whitespace`, `to_ascii_lowercase`, `[T]::join`, decimal
    formatting with `{}` and `str::parse` for unsigned integers. */
module Strings {

  /** The Unicode White_Space property, which `char::is_whitespace` tests. */
  predicate IsWhitespace(c: char) {
    ('\t' <= c <= '\r') || c == ' ' || c == '\U{85}' || c == '\U{A0}' || c == '\U{1680}'
    || ('\U{2000}' <= c <= '\U{200A}') || c == '\U{2028}' || c == '\U{2029}'
    || c == '\U{202F}' || c == '\U{205F}' || c == '\U{3000}'
  }

  predicate IsAsciiDigit(c: char) {
    '0' <= c <= '9'
  }

  predicate AllDigits(s: string) {
    forall i :: 0 <= i < |s| ==> IsAsciiDigit(s[i])
  }

  predicate NoWhitespace(s: string) {
    forall i :: 0 <= i < |s| ==> !IsWhitespace(s[i])
  }

  lemma DigitsHaveNoWhitespace(s: string)
    requires AllDigits(s)
    ensures NoWhitespace(s)
    ensures s == [] || (!IsWhitespace(s[0]) && !IsWhitespace(s[|s| - 1]))
  {
    forall i | 0 <= i < |s|
      ensures !IsWhitespace(s[i])
    {
      assert IsAsciiDigit(s[i]);
    }
  }

  predicate Excludes(s: string, c: char) {
    forall i :: 0 <= i < |s| ==> s[i] != c
  }

  predicate EndsWith(s: string, suffix: string) {
    |suffix| <= |s| && s[|s| - |suffix|..] == suffix
  }

  // ---------------------------------------------------------------- trimming

  predicate AllWhitespace(s: string) {
    forall i :: 0 <= i < |s| ==> IsWhitespace(s[i])
  }

  function TrimStart(s: string): (r: string)
    ensures |r| <= |s| && r == s[|s| - |r|..]
    ensures r == [] || !IsWhitespace(r[0])
    decreases |s|
  {
    if |s| > 0 && IsWhitespace(s[0]) then TrimStart(s[1..]) else s
  }

  /** What `TrimStart` drops is whitespace. */
  lemma {:induction false} TrimStartDropsWhitespace(s: string)
    ensures AllWhitespace(s[..|s| - |TrimStart(s)|])
    decreases |s|
  {
    if |s| > 0 && IsWhitespace(s[0]) {
      TrimStartDropsWhitespace(s[1..]);
      var k := |s| - |TrimStart(s)|;
      forall i | 0 <= i < k ensures IsWhitespace(s[..k][i]) {
        if i > 0 {
          assert s[..k][i] == s[1..][..k - 1][i - 1];
        }
      }
    }
  }

  function TrimEnd(s: string): (r: string)
    ensures |r| <= |s| && r == s[..|r|]
    ensures r == [] || !IsWhitespace(r[|r| - 1])
    decreases |s|
  {
    if |s| > 0 && IsWhitespace(s[|s| - 1]) then
      TrimEnd(s[..|s| - 1])
    else s
  }

  /** `str::trim`: the longest slice of `s` that neither starts nor ends with
      whitespace, obtained by removing only whitespace. */
  function Trim(s: string): (r: string)
    ensures |r| <= |s|
    ensures var k := |s| - |TrimStart(s)|; k + |r| <= |s| && r == s[k..k + |r|]
    ensures r == [] || (!IsWhitespace(r[0]) && !IsWhitespace(r[|r| - 1]))
  {
    var t := TrimStart(s);
    PrefixOfSuffix(s, t, TrimEnd(t));
    FirstKept(t, TrimEnd(t));
    TrimEnd(t)
  }

  /** A non-empty prefix starts with the character its source starts with. */
  lemma FirstKept(t: string, r: string)
    requires t == [] || !IsWhitespace(t[0])
    requires |r| <= |t| && r == t[..|r|]
    ensures r == [] || !IsWhitespace(r[0])
  {
    if r != [] {
      assert r[0] == t[0];
    }
  }

  /** A prefix of a suffix of `s` is a slice of `s` that starts where the
      suffix does. */
  lemma PrefixOfSuffix<X>(s: seq<X>, t: seq<X>, r: seq<X>)
    requires |t| <= |s| && t == s[|s| - |t|..]
    requires |r| <= |t| && r == t[..|r|]
    ensures var k := |s| - |t|; k + |r| <= |s| && r == s[k..k + |r|]
    ensures r != [] ==> r[0] == t[0]
  {
  }

  lemma TrimOfWhitespaceFree(s: string)
    requires s == [] || (!IsWhitespace(s[0]) && !IsWhitespace(s[|s| - 1]))
    ensures Trim(s) == s
  {
  }

  lemma {:induction false} TrimStartPadded(pre: string, s: string)
    requires AllWhitespace(pre)
    requires s == [] || !IsWhitespace(s[0])
    ensures TrimStart(pre + s) == s
    decreases |pre|
  {
    if pre == [] {
      assert pre + s == s;
    } else {
      assert (pre + s)[1..] == pre[1..] + s;
      TrimStartPadded(pre[1..], s);
    }
  }

  lemma {:induction false} TrimEndPadded(s: string, post: string)
    requires AllWhitespace(post)
    requires s == [] || !IsWhitespace(s[|s| - 1])
    ensures TrimEnd(s + post) == s
    decreases |post|
  {
    if post == [] {
      assert s + post == s;
    } else {
      var q := s + post;
      assert q[..|q| - 1] == s + post[..|post| - 1];
      TrimEndPadded(s, post[..|post| - 1]);
    }
  }

  /** Trimming removes exactly the whitespace around a word. */
  lemma TrimPadded(pre: string, w: string, post: string)
    requires AllWhitespace(pre) && AllWhitespace(post)
    requires w != [] && !IsWhitespace(w[0]) && !IsWhitespace(w[|w| - 1])
    ensures Trim(pre + w + post) == w
  {
    assert pre + w + post == pre + (w + post);
    TrimStartPadded(pre, w + post);
    TrimEndPadded(w, post);
  }

  /** `part` occurs in `s` at position `i`. */
  predicate OccursAt(s: string, part: string, i: nat) {
    i + |part| <= |s| && s[i..i + |part|] == part
  }

  /** `str::contains` for a string pattern. */
  predicate Contains(s: string, part: string) {
    exists i: nat | i <= |s| :: OccursAt(s, part, i)
  }

  function LowerChar(c: char): (r: char)
    ensures 'A' <= c <= 'Z' ==> 'a' <= r <= 'z'
    ensures !('A' <= c <= 'Z') ==> r == c
  {
    if 'A' <= c <= 'Z' then (c as int + 32) as char else c
  }

  /** `to_ascii_lowercase`: ASCII capitals become small letters, every other
      character is kept. */
  function ToAsciiLower(s: string): (r: string)
    ensures |r| == |s|
    ensures forall i :: 0 <= i < |s| ==> r[i] == LowerChar(s[i])
  {
    seq(|s|, i requires 0 <= i < |s| => LowerChar(s[i]))
  }

  // ------------------------------------------------------------ joining lines

  /** `[String]::join(sep)`. */
  function Join(parts: seq<string>, sep: string): (r: string)
    ensures |parts| == 1 ==> r == parts[0]
    decreases |parts|
  {
    if |parts| == 0 then "" else if |parts| == 1 then parts[0] else parts[0] + sep + Join(parts[1..], sep)
  }

  /** Each part followed by a newline; what `join("\n")` plus a final '\n' gives. */
  function Terminated(ls: seq<string>): string
    decreases |ls|
  {
    if ls == [] then "" else ls[0] + "\n" + Terminated(ls[1..])
  }

  lemma {:induction false} JoinThenNewline(ls: seq<string>)
    requires |ls| >= 1
    ensures Join(ls, "\n") + "\n" == Terminated(ls)
    decreases |ls|
  {
    if |ls| > 1 {
      JoinThenNewline(ls[1..]);
      calc {
        Join(ls, "\n") + "\n";
        ls[0] + "\n" + Join(ls[1..], "\n") + "\n";
        ls[0] + "\n" + (Join(ls[1..], "\n") + "\n");
        ls[0] + "\n" + Terminated(ls[1..]);
      }
    } else {
      assert ls[1..] == [];
    }
  }

  /** Index of the first `c` in `s`, or |s| when there is none. */
  function IndexOf(s: string, c: char): (i: nat)
    ensures i <= |s|
    ensures i < |s| ==> s[i] == c
    ensures forall j :: 0 <= j < i ==> s[j] != c
    decreases |s|
  {
    if |s| == 0 then 0 else if s[0] == c then 0 else 1 + IndexOf(s[1..], c)
  }

  function StripCarriageReturn(line: string): string {
    if |line| > 0 && line[|line| - 1] == '\r' then line[..|line| - 1] else line
  }

  /** The first `c` of `a + b` is the head of `b` when `a` has none. */
  lemma IndexOfAfter(a: string, b: string, c: char)
    requires Excludes(a, c) && |b| > 0 && b[0] == c
    ensures IndexOf(a + b, c) == |a|
  {
    var i := IndexOf(a + b, c);
    assert (a + b)[|a|] == c;
    assert forall j :: 0 <= j < |a| ==> (a + b)[j] == a[j];
  }

  /** `str::lines`: split at '\n'; a segment ended by '\n' loses one trailing
      '\r'; a final '\n' does not start another (empty) line. */
  function Lines(s: string): seq<string>
    decreases |s|
  {
    if s == [] then []
    else
      var i := IndexOf(s, '\n');
      if i == |s| then [s] else [StripCarriageReturn(s[..i])] + Lines(s[i + 1..])
  }

  predicate PlainLine(line: string) {
    Excludes(line, '\n') && (line == [] || line[|line| - 1] != '\r')
  }

  /** Reading back newline-terminated lines with `str::lines` gives the lines. */
  lemma {:induction false} LinesOfTerminated(ls: seq<string>)
    requires forall i :: 0 <= i < |ls| ==> PlainLine(ls[i])
    ensures Lines(Terminated(ls)) == ls
    decreases |ls|
  {
    if ls != [] {
      var s := Terminated(ls);
      var l := ls[0];
      var rest := Terminated(ls[1..]);
      var tail := "\n" + rest;
      ConcatAssociative(l, "\n", rest);
      assert s == l + tail;
      assert PlainLine(l);
      IndexOfAfter(l, tail, '\n');
      assert s[..|l|] == l;
      assert s[|l| + 1..] == tail[1..] == rest;
      assert StripCarriageReturn(l) == l;
      assert Lines(s) == [l] + Lines(rest);
      LinesOfTerminated(ls[1..]);
      assert ls == [l] + ls[1..];
    }
  }

  // -------------------------------------------------------- split_whitespace

  /** The longest prefix of `s` without whitespace. */
  function WordPrefix(s: string): (w: string)
    ensures |w| <= |s| && w == s[..|w|]
    ensures NoWhitespace(w)
    ensures |w| < |s| ==> IsWhitespace(s[|w|])
    ensures |s| > 0 && !IsWhitespace(s[0]) ==> |w| >= 1
    decreases |s|
  {
    if |s| == 0 || IsWhitespace(s[0]) then "" else [s[0]] + WordPrefix(s[1..])
  }

  /** `str::split_whitespace`: the non-empty maximal runs of non-whitespace. */
  function SplitWhitespace(s: string): (ws: seq<string>)
    ensures forall i :: 0 <= i < |ws| ==> ws[i] != [] && NoWhitespace(ws[i])
    decreases |s|
  {
    var t := TrimStart(s);
    if t == [] then []
    else
      var w := WordPrefix(t);
      var rest := SplitWhitespace(t[|w|..]);
      assert w != [];
      SplitWhitespaceCons(w, rest);
      [w] + rest
  }

  lemma SplitWhitespaceCons(w: string, rest: seq<string>)
    requires w != [] && NoWhitespace(w)
    requires forall i :: 0 <= i < |rest| ==> rest[i] != [] && NoWhitespace(rest[i])
    ensures forall i :: 0 <= i < |[w] + rest| ==> ([w] + rest)[i] != [] && NoWhitespace(([w] + rest)[i])
  {
    forall i | 0 <= i < |[w] + rest|
      ensures ([w] + rest)[i] != [] && NoWhitespace(([w] + rest)[i])
    {
      if i > 0 { assert ([w] + rest)[i] == rest[i - 1]; }
    }
  }

  lemma {:induction false} WordPrefixOf(w: string, rest: string)
    requires NoWhitespace(w)
    requires rest == [] || IsWhitespace(rest[0])
    ensures WordPrefix(w + rest) == w
    decreases |w|
  {
    if w != [] {
      assert (w + rest)[1..] == w[1..] + rest;
      WordPrefixOf(w[1..], rest);
    } else {
      assert w + rest == rest;
    }
  }

  /** A word followed by whitespace splits off as the first word. */
  lemma SplitWhitespaceWord(w: string, sep: char, rest: string)
    requires w != [] && NoWhitespace(w) && IsWhitespace(sep)
    ensures SplitWhitespace(w + [sep] + rest) == [w] + SplitWhitespace(rest)
  {
    var s := w + [sep] + rest;
    assert s == w + ([sep] + rest);
    WordPrefixOf(w, [sep] + rest);
    assert TrimStart(s) == s;
    assert s[|w|..] == [sep] + rest;
    assert ([sep] + rest)[1..] == rest;
    assert TrimStart([sep] + rest) == TrimStart(rest);
  }

  /** A single word ended by whitespace is one token. */
  lemma SplitWhitespaceLast(w: string, sep: char)
    requires w != [] && NoWhitespace(w) && IsWhitespace(sep)
    ensures SplitWhitespace(w + [sep]) == [w]
  {
    var s := w + [sep];
    WordPrefixOf(w, [sep]);
    assert TrimStart(s) == s;
    assert s[|w|..] == [sep];
    assert TrimStart([sep]) == [] by { assert [sep][1..] == []; }
    assert SplitWhitespace([sep]) == [];
  }

  /** Three words separated by spaces and ended by a newline. */
  lemma SplitThreeWords(a: string, b: string, c: string)
    requires a != [] && NoWhitespace(a) && b != [] && NoWhitespace(b) && c != [] && NoWhitespace(c)
    ensures SplitWhitespace(a + " " + b + " " + c + "\n") == [a, b, c]
  {
    var last := c + ['\n'];
    var mid := b + [' '] + last;
    SplitWhitespaceLast(c, '\n');
    SplitWhitespaceWord(b, ' ', last);
    SplitWhitespaceWord(a, ' ', mid);
    ThreeWordsShape(a, b, c);
    ListShape(a, b, c);
  }

  /** Two words separated by a space and ended by a newline. */
  lemma TwoWords(a: string, b: string)
    requires a != [] && NoWhitespace(a) && b != [] && NoWhitespace(b)
    ensures SplitWhitespace(a + " " + b + "\n") == [a, b]
  {
    var last := b + ['\n'];
    SplitWhitespaceLast(b, '\n');
    SplitWhitespaceWord(a, ' ', last);
    TwoWordsShape(a, b);
    PairShape(a, b);
  }

  lemma TwoWordsShape(a: string, b: string)
    ensures a + " " + b + "\n" == a + [' '] + (b + ['\n'])
  {
  }

  lemma ThreeWordsShape(a: string, b: string, c: string)
    ensures a + " " + b + " " + c + "\n" == a + [' '] + (b + [' '] + (c + ['\n']))
  {
  }

  lemma ConcatAssociative<X>(a: seq<X>, b: seq<X>, c: seq<X>)
    ensures a + b + c == a + (b + c)
  {
  }

  lemma PairShape<X>(x: X, y: X)
    ensures [x] + [y] == [x, y]
  {
  }

  lemma ListShape<X>(x: X, y: X, z: X)
    ensures [x] + ([y] + [z]) == [x, y, z]
  {
  }

  // ------------------------------------------------------ decimal formatting

  function DigitChar(d: nat): (c: char)
    requires d < 10
    ensures IsAsciiDigit(c)
  {
    ('0' as int + d) as char
  }

  function DigitValue(c: char): (d: nat)
    requires IsAsciiDigit(c)
    ensures d < 10
  {
    c as int - '0' as int
  }

  /** `format!("{}", n)` for an unsigned integer. */
  function NatToString(n: nat): (s: string)
    ensures |s| >= 1 && AllDigits(s)
    ensures |s| > 1 ==> s[0] != '0'
    decreases n
  {
    if n < 10 then [DigitChar(n)] else NatToString(n / 10) + [DigitChar(n % 10)]
  }

  /** A printed number has nothing to trim. */
  lemma TrimNatToString(n: nat)
    ensures Trim(NatToString(n)) == NatToString(n)
  {
    var s := NatToString(n);
    assert IsAsciiDigit(s[0]) && IsAsciiDigit(s[|s| - 1]);
    TrimOfWhitespaceFree(s);
  }

  /** `format!("{}", i)` for a signed integer. */
  function IntToString(i: int): string {
    if i < 0 then "-" + NatToString(-i) else NatToString(i)
  }

  /** The number a string of decimal digits denotes. */
  function DecimalValue(s: string): nat
    requires AllDigits(s)
    decreases |s|
  {
    if s == [] then 0 else DecimalValue(s[..|s| - 1]) * 10 + DigitValue(s[|s| - 1])
  }

  lemma {:induction false} DecimalValueOfNatToString(n: nat)
    ensures DecimalValue(NatToString(n)) == n
    decreases n
  {
    var s := NatToString(n);
    if n >= 10 {
      DecimalValueOfNatToString(n / 10);
      assert s[..|s| - 1] == NatToString(n / 10);
    }
  }

  /** Distinct numbers are printed differently. */
  lemma NatToStringInjective(m: nat, n: nat)
    requires NatToString(m) == NatToString(n)
    ensures m == n
  {
    DecimalValueOfNatToString(m);
    DecimalValueOfNatToString(n);
  }

  // ------------------------------------------------------ unsigned parsing

  /** The `ParseIntError` kinds an unsigned `str::parse` can report. */
  datatype IntErrorKind = Empty | InvalidDigit | PosOverflow

  function IntErrorText(k: IntErrorKind): string {
    match k
    case Empty => "cannot parse integer from empty string"
    case InvalidDigit => "invalid digit found in string"
    case PosOverflow => "number too large to fit in target type"
  }

  datatype Parsed = Parsed(value: nat) | ParseFailed(kind: IntErrorKind)

  /** The digit loop of `from_str_radix`: left to right, each character must
      be a digit and the running value must stay below `bound`. */
  function ScanDigits(d: string, bound: nat, acc: nat): (r: Parsed)
    ensures r.Parsed? && acc < bound ==> r.value < bound
    decreases |d|
  {
    if d == [] then Parsed(acc)
    else if !IsAsciiDigit(d[0]) then ParseFailed(InvalidDigit)
    else
      var v := acc * 10 + DigitValue(d[0]);
      if v >= bound then ParseFailed(PosOverflow) else ScanDigits(d[1..], bound, v)
  }

  /** `str::parse::<uN>()` with `bound` = 2^N: an optional '+' and then at
      least one digit; the value must be below `bound`. */
  function ParseUnsigned(s: string, bound: nat): (r: Parsed)
    ensures r.Parsed? ==> r.value < bound
  {
    if s == [] then ParseFailed(Empty)
    else if |s| == 1 && (s[0] == '+' || s[0] == '-') then ParseFailed(InvalidDigit)
    else ScanDigits(if s[0] == '+' then s[1..] else s, bound, 0)
  }

  lemma {:induction false} ScanDigitsAppend(p: string, c: char, bound: nat, acc: nat)
    requires ScanDigits(p, bound, acc).Parsed?
    ensures ScanDigits(p + [c], bound, acc) ==
      var v := ScanDigits(p, bound, acc).value;
      if !IsAsciiDigit(c) then ParseFailed(InvalidDigit)
      else if v * 10 + DigitValue(c) >= bound then ParseFailed(PosOverflow)
      else Parsed(v * 10 + DigitValue(c))
    decreases |p|
  {
    if p == [] {
      assert p + [c] == [c];
      assert [c][1..] == [];
    } else {
      assert (p + [c])[0] == p[0];
      assert (p + [c])[1..] == p[1..] + [c];
      ScanDigitsAppend(p[1..], c, bound, acc * 10 + DigitValue(p[0]));
    }
  }

  lemma {:induction false} ScanNatToString(n: nat, bound: nat)
    requires n < bound
    ensures ScanDigits(NatToString(n), bound, 0) == Parsed(n)
    decreases n
  {
    if n < 10 {
      assert NatToString(n) == [DigitChar(n)];
      assert [DigitChar(n)][1..] == [];
    } else {
      ScanNatToString(n / 10, bound);
      ScanDigitsAppend(NatToString(n / 10), DigitChar(n % 10), bound, 0);
    }
  }

  /** Parsing what `{}` printed gives the number back. */
  lemma ParseNatToString(n: nat, bound: nat)
    requires n < bound
    ensures ParseUnsigned(NatToString(n), bound) == Parsed(n)
  {
    var s := NatToString(n);
    ScanNatToString(n, bound);
    assert s[0] != '+' && s[0] != '-' by { assert IsAsciiDigit(s[0]); }
  }

  // ------------------------------------------------------ lexicographic order

  /** `Ord` on strings: lexicographic on characters. */
  predicate StrLe(a: string, b: string)
    decreases |a|
  {
    if a == [] then true
    else if b == [] then false
    else if a[0] != b[0] then a[0] < b[0]
    else StrLe(a[1..], b[1..])
  }

  predicate StrLt(a: string, b: string) {
    StrLe(a, b) && a != b
  }

  lemma {:induction false} StrLeTotal(a: string, b: string)
    ensures StrLe(a, b) || StrLe(b, a)
    decreases |a|
  {
    if a != [] && b != [] && a[0] == b[0] {
      StrLeTotal(a[1..], b[1..]);
    }
  }

  lemma {:induction false} StrLeAntisymmetric(a: string, b: string)
    requires StrLe(a, b) && StrLe(b, a)
    ensures a == b
    decreases |a|
  {
    if a != [] && b != [] {
      StrLeAntisymmetric(a[1..], b[1..]);
      assert a == [a[0]] + a[1..];
      assert b == [b[0]] + b[1..];
    }
  }

  lemma {:induction false} StrLeTransitive(a: string, b: string, c: string)
    requires StrLe(a, b) && StrLe(b, c)
    ensures StrLe(a, c)
    decreases |a|
  {
    if a != [] && b != [] && c != [] && a[0] == b[0] && b[0] == c[0] {
      StrLeTransitive(a[1..], b[1..], c[1..]);
    }
  }
}
