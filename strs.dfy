/**
 * The string operations of Python 2 that the core relies on, written out:
 * `in` on strings, `strip`, `split`/`join`, `readlines`, `lower`,
 * `os.path.basename`/`dirname`, `"%d"`/`"%09d"` formatting and `int()`.
 * A Python 2 `str` is a byte string; `ByteString` is a Dafny string whose
 * characters are all below 256.
 */
module Strs {
  import opened Py

  predicate IsBytes(s: string) {
    forall i | 0 <= i < |s| :: s[i] as int < 256
  }

  type ByteString = s: string | IsBytes(s)

  newtype byte = x: int | 0 <= x < 256

  /** The bytes of a byte string. */
  function Bytes(s: ByteString): (r: seq<byte>)
    ensures |r| == |s| && forall i | 0 <= i < |s| :: r[i] as int == s[i] as int
  {
    if |s| == 0 then [] else [s[0] as int as byte] + Bytes(s[1..])
  }

  /** The byte string of a sequence of bytes. */
  function Chars(b: seq<byte>): (r: ByteString)
    ensures |r| == |b| && forall i | 0 <= i < |b| :: r[i] as int == b[i] as int
  {
    if |b| == 0 then [] else [b[0] as int as char] + Chars(b[1..])
  }

  lemma CharsBytes(s: ByteString)
    ensures Chars(Bytes(s)) == s
  {
  }

  predicate StartsWith(s: string, prefix: string) {
    |prefix| <= |s| && s[..|prefix|] == prefix
  }

  predicate EndsWith(s: string, suffix: string) {
    |suffix| <= |s| && s[|s| - |suffix|..] == suffix
  }

  /** A concatenation starts with its left part and ends with its right part. */
  lemma ConcatEnds(a: string, b: string)
    ensures StartsWith(a + b, a) && EndsWith(a + b, b)
  {
    assert (a + b)[..|a|] == a;
    assert (a + b)[|a|..] == b;
  }

  /** `sub` occurs in `s` starting at index `i`. */
  predicate OccursAt(s: string, sub: string, i: int) {
    0 <= i && i + |sub| <= |s| && s[i..i + |sub|] == sub
  }

  /** Python's `sub in s`. */
  function Contains(s: string, sub: string): (r: bool)
    ensures r <==> exists i :: OccursAt(s, sub, i)
    decreases |s|
  {
    if |sub| > |s| then false
    else if s[..|sub|] == sub then
      assert OccursAt(s, sub, 0);
      true
    else
      OccursStep(s, sub);
      Contains(s[1..], sub)
  }

  /** An occurrence not at the front is an occurrence in the tail. */
  lemma OccursStep(s: string, sub: string)
    requires |s| >= 1 && !OccursAt(s, sub, 0)
    ensures (exists i :: OccursAt(s, sub, i)) <==> (exists j :: OccursAt(s[1..], sub, j))
  {
    forall i | OccursAt(s, sub, i) ensures OccursAt(s[1..], sub, i - 1) {
      assert s[1..][i - 1..i - 1 + |sub|] == s[i..i + |sub|];
    }
    forall j | OccursAt(s[1..], sub, j) ensures OccursAt(s, sub, j + 1) {
      assert s[1..][j..j + |sub|] == s[j + 1..j + 1 + |sub|];
    }
  }

  /** The first index of `c` in `s`, like `s.find(c)` with -1 as None. */
  function IndexOf(s: string, c: char): (r: Option<nat>)
    ensures r.None? <==> c !in s
    ensures r.Some? ==> r.value < |s| && s[r.value] == c && c !in s[..r.value]
  {
    if |s| == 0 then None
    else if s[0] == c then Some(0)
    else
      match IndexOf(s[1..], c)
      case None => None
      case Some(i) =>
        assert s[..i + 1] == [s[0]] + s[1..][..i];
        Some(i + 1)
  }

  /** The last index of `c` in `s`, like `s.rfind(c)` with -1 as None. */
  function LastIndexOf(s: string, c: char): (r: Option<nat>)
    ensures r.None? <==> c !in s
    ensures r.Some? ==> r.value < |s| && s[r.value] == c && c !in s[r.value + 1..]
  {
    if |s| == 0 then None
    else if s[|s| - 1] == c then Some(|s| - 1)
    else
      var init := s[..|s| - 1];
      assert s == init + [s[|s| - 1]];
      match LastIndexOf(init, c)
      case None => None
      case Some(i) =>
        assert s[i + 1..] == init[i + 1..] + [s[|s| - 1]];
        Some(i)
  }

  // ---------------------------------------------------------------- strip

  const Whitespace: set<char> := {' ', '\t', '\n', '\r', '\U{B}', '\U{C}'}

  /** `s.lstrip(chars)`: the longest suffix of `s` that does not start with a char of `cs`. */
  function LStrip(s: string, cs: set<char>): (r: string)
    ensures |r| <= |s| && r == s[|s| - |r|..]
    ensures forall i | 0 <= i < |s| - |r| :: s[i] in cs
    ensures r != [] ==> r[0] !in cs
  {
    if |s| > 0 && s[0] in cs then LStrip(s[1..], cs) else s
  }

  /** `s.rstrip(chars)`: the longest prefix of `s` that does not end with a char of `cs`. */
  function RStrip(s: string, cs: set<char>): (r: string)
    ensures |r| <= |s| && r == s[..|r|]
    ensures forall i | |r| <= i < |s| :: s[i] in cs
    ensures r != [] ==> r[|r| - 1] !in cs
  {
    if |s| > 0 && s[|s| - 1] in cs then RStrip(s[..|s| - 1], cs) else s
  }

  /** `s.strip(chars)`. */
  function Strip(s: string, cs: set<char>): (r: string)
    ensures r != [] ==> r[0] !in cs && r[|r| - 1] !in cs
    ensures forall c | c in r :: c in s
  {
    var l := LStrip(s, cs);
    var r := RStrip(l, cs);
    SliceChars(s, |s| - |l|, |s|);
    SliceChars(l, 0, |r|);
    r
  }

  /** Every character of a slice is a character of the whole. */
  lemma SliceChars(s: string, i: nat, j: nat)
    requires i <= j <= |s|
    ensures forall c | c in s[i..j] :: c in s
  {
    forall c | c in s[i..j]
      ensures c in s
    {
      var k :| 0 <= k < j - i && s[i..j][k] == c;
      assert s[i + k] == c;
    }
  }

  /** Stripping a string that neither starts nor ends with a char of `cs` changes nothing. */
  lemma StripClean(s: string, cs: set<char>)
    requires s != [] ==> s[0] !in cs && s[|s| - 1] !in cs
    ensures Strip(s, cs) == s
  {
  }

  // ---------------------------------------------------------------- split / join

  /** Python's `s.split(sep)` for a one-character separator. */
  function Split(s: string, sep: char): (r: seq<string>)
    ensures |r| >= 1
    ensures forall i | 0 <= i < |r| :: sep !in r[i]
    decreases |s|
  {
    match IndexOf(s, sep)
    case None => [s]
    case Some(i) => [s[..i]] + Split(s[i + 1..], sep)
  }

  /** Python's `sep.join(parts)`. */
  function Join(parts: seq<string>, sep: string): string {
    if |parts| == 0 then ""
    else if |parts| == 1 then parts[0]
    else parts[0] + sep + Join(parts[1..], sep)
  }

  /** The first occurrence of `c` is the one with no `c` before it. */
  lemma IndexOfAt(s: string, c: char, k: nat)
    requires k < |s| && s[k] == c && c !in s[..k]
    ensures IndexOf(s, c) == Some(k)
  {
    assert s[k] in s;
    assert forall m | 0 <= m < k :: s[..k][m] == s[m];
  }

  /** A part without the separator, the separator, then the rest: the part comes first. */
  lemma SplitStep(p0: string, rest: string, sep: char)
    requires sep !in p0
    ensures Split(p0 + [sep] + rest, sep) == [p0] + Split(rest, sep)
  {
    var s := p0 + [sep] + rest;
    assert s[..|p0|] == p0;
    IndexOfAt(s, sep, |p0|);
    assert s[|p0| + 1..] == rest;
  }

  /** Splitting a join on a separator that no part contains gives the parts back. */
  lemma {:induction false} SplitJoin(parts: seq<string>, sep: char)
    requires |parts| >= 1
    requires forall i | 0 <= i < |parts| :: sep !in parts[i]
    ensures Split(Join(parts, [sep]), sep) == parts
  {
    if |parts| > 1 {
      var rest := Join(parts[1..], [sep]);
      assert Join(parts, [sep]) == parts[0] + [sep] + rest;
      SplitStep(parts[0], rest, sep);
      SplitJoin(parts[1..], sep);
      assert parts == [parts[0]] + parts[1..];
    } else {
      assert Join(parts, [sep]) == parts[0];
      assert IndexOf(parts[0], sep).None?;
    }
  }

  /** Splitting at a separator placed between two strings splits each side on its own. */
  lemma {:induction false} SplitConcat(a: string, b: string, sep: char)
    ensures Split(a + [sep] + b, sep) == Split(a, sep) + Split(b, sep)
    decreases |a|
  {
    var k := IndexOf(a, sep);
    if k.None? {
      SplitStep(a, b, sep);
    } else {
      var a1, a2 := a[..k.value], a[k.value + 1..];
      var s := a2 + [sep] + b;
      assert a == a1 + [sep] + a2;
      assert a + [sep] + b == a1 + [sep] + s;
      SplitConcat(a2, b, sep);
      SplitConcatStep(a1, a2, b, s, a, a + [sep] + b, sep);
    }
  }

  lemma SplitConcatStep(a1: string, a2: string, b: string, s: string, a: string, whole: string, sep: char)
    requires sep !in a1
    requires a == a1 + [sep] + a2 && whole == a1 + [sep] + s
    requires Split(s, sep) == Split(a2, sep) + Split(b, sep)
    ensures Split(whole, sep) == Split(a, sep) + Split(b, sep)
  {
    SplitStep(a1, a2, sep);
    SplitStep(a1, s, sep);
    ConcatAssoc([a1], Split(a2, sep), Split(b, sep));
  }

  lemma ConcatAssoc<T>(p: seq<T>, q: seq<T>, r: seq<T>)
    ensures p + (q + r) == p + q + r
  {
  }

  /** Joining the pieces of a split with the same separator gives the string back. */
  lemma {:induction false} JoinSplit(s: string, sep: char)
    ensures Join(Split(s, sep), [sep]) == s
    decreases |s|
  {
    var k := IndexOf(s, sep);
    if k.Some? {
      var i := k.value;
      var tail := Split(s[i + 1..], sep);
      var parts := [s[..i]] + tail;
      assert Split(s, sep) == parts;
      assert parts[1..] == tail;
      JoinSplit(s[i + 1..], sep);
      assert Join(parts, [sep]) == s[..i] + [sep] + s[i + 1..];
      assert s == s[..i] + [sep] + s[i + 1..];
    }
  }

  // ---------------------------------------------------------------- readlines

  /** Python's `f.readlines()` on a file holding `text`: lines keep their '\n'. */
  function ReadLines(text: string): (r: seq<string>)
    ensures forall i | 0 <= i < |r| :: r[i] != []
    decreases |text|
  {
    if |text| == 0 then []
    else
      match IndexOf(text, '\n')
      case None => [text]
      case Some(i) => [text[..i + 1]] + ReadLines(text[i + 1..])
  }

  function Concat(lines: seq<string>): string {
    if |lines| == 0 then "" else lines[0] + Concat(lines[1..])
  }

  /** `readlines` loses nothing: its lines put back together are the text. */
  lemma {:induction false} ReadLinesConcat(text: string)
    ensures Concat(ReadLines(text)) == text
    decreases |text|
  {
    if |text| > 0 {
      var k := IndexOf(text, '\n');
      if k.Some? {
        var i := k.value;
        var tail := ReadLines(text[i + 1..]);
        var lines := [text[..i + 1]] + tail;
        assert ReadLines(text) == lines;
        assert lines[1..] == tail;
        ReadLinesConcat(text[i + 1..]);
        assert Concat(lines) == text[..i + 1] + text[i + 1..];
        assert text == text[..i + 1] + text[i + 1..];
      }
    }
  }

  /** The first line of `line + "\n" + rest` is `line + "\n"` when `line` has no newline. */
  lemma FirstLine(line: string, rest: string)
    requires '\n' !in line
    ensures ReadLines(line + "\n" + rest)[0] == line + "\n"
  {
    var t := line + "\n" + rest;
    assert t[|line|] == '\n' && t[..|line|] == line;
    assert t[..|line| + 1] == line + "\n";
  }

  // ---------------------------------------------------------------- case

  function LowerChar(c: char): char {
    if 'A' <= c <= 'Z' then (c as int - 'A' as int + 'a' as int) as char else c
  }

  /** Python 2 `str.lower()` in the C locale: ASCII letters only. */
  function Lower(s: string): (r: string)
    ensures |r| == |s|
    ensures forall i | 0 <= i < |s| :: r[i] == LowerChar(s[i])
  {
    if |s| == 0 then "" else [LowerChar(s[0])] + Lower(s[1..])
  }

  // ---------------------------------------------------------------- paths

  /** `os.path.basename(p)`: everything after the last '/'. */
  function Basename(p: string): (r: string)
    ensures '/' !in r
    ensures EndsWith(p, r)
    ensures r == p || (|r| < |p| && p[|p| - |r| - 1] == '/')
  {
    match LastIndexOf(p, '/')
    case None => p
    case Some(i) => p[i + 1..]
  }

  /** `os.path.dirname(p)`: the head before the last '/', trailing slashes removed unless all slashes. */
  function Dirname(p: string): string {
    var head := match LastIndexOf(p, '/') case None => "" case Some(i) => p[..i + 1];
    if head != [] && (exists i | 0 <= i < |head| :: head[i] != '/') then RStrip(head, {'/'}) else head
  }

  // ---------------------------------------------------------------- decimals

  predicate IsDigit(c: char) {
    '0' <= c <= '9'
  }

  predicate AllDigits(s: string) {
    forall i | 0 <= i < |s| :: IsDigit(s[i])
  }

  function DigitChar(d: nat): (c: char)
    requires d < 10
    ensures IsDigit(c)
  {
    ('0' as int + d) as char
  }

  /** `"%d" % n` for a natural number. */
  function NatToDecimal(n: nat): (r: string)
    ensures |r| >= 1 && AllDigits(r)
    ensures n > 0 ==> r[0] != '0'
  {
    if n < 10 then [DigitChar(n)] else NatToDecimal(n / 10) + [DigitChar(n % 10)]
  }

  /** The number a string of decimal digits denotes. */
  function DecimalValue(s: string): nat
    requires AllDigits(s)
  {
    if |s| == 0 then 0 else DecimalValue(s[..|s| - 1]) * 10 + (s[|s| - 1] as int - '0' as int)
  }

  /** Formatting a natural in decimal and reading it back gives the number. */
  lemma {:induction false} DecimalRoundTrip(n: nat)
    ensures DecimalValue(NatToDecimal(n)) == n
  {
    if n >= 10 {
      DecimalRoundTrip(n / 10);
      var s := NatToDecimal(n);
      assert s[..|s| - 1] == NatToDecimal(n / 10);
    }
  }

  function Repeat(c: char, k: nat): (r: string)
    ensures |r| == k && forall i | 0 <= i < k :: r[i] == c
  {
    if k == 0 then "" else [c] + Repeat(c, k - 1)
  }

  /** Leading zeros do not change the number. */
  lemma {:induction false} LeadingZeros(k: nat, s: string)
    requires AllDigits(s)
    ensures AllDigits(Repeat('0', k) + s)
    ensures DecimalValue(Repeat('0', k) + s) == DecimalValue(s)
    decreases |s|, k
  {
    var z := Repeat('0', k);
    if |s| == 0 {
      assert z + s == z;
      if k > 0 {
        LeadingZeros(k - 1, s);
        assert z[..k - 1] == Repeat('0', k - 1);
        assert Repeat('0', k - 1) + s == Repeat('0', k - 1);
      }
    } else {
      var init := s[..|s| - 1];
      LeadingZeros(k, init);
      assert (z + s)[..|z + s| - 1] == z + init;
    }
  }

  /** `"%0*d" % (width, n)`: decimal, left-padded with zeros to at least `width` characters. */
  function ZeroPadded(n: nat, width: nat): (r: string)
    ensures |r| == if |NatToDecimal(n)| < width then width else |NatToDecimal(n)|
    ensures AllDigits(r) && DecimalValue(r) == n
  {
    var d := NatToDecimal(n);
    var k := if |d| < width then width - |d| else 0;
    LeadingZeros(k, d);
    DecimalRoundTrip(n);
    Repeat('0', k) + d
  }

  /** `str(i)` / `"%d" % i` for any integer. */
  function IntToDecimal(i: int): string {
    if i < 0 then "-" + NatToDecimal(-i) else NatToDecimal(i)
  }

  /**
   * The parts of an integer's text once its surrounding blanks are gone: a
   * sign ("", "+" or "-"), blanks (only after a sign), and at least one digit.
   */
  predicate SignedDigits(sign: string, w: string, d: string) {
    (sign == "" || sign == "+" || sign == "-") && (sign == "" ==> w == "")
    && (forall c | c in w :: c in Whitespace) && |d| >= 1 && AllDigits(d)
  }

  /** The value of the digits `d` under `sign`. */
  function Signed(sign: string, d: string): int
    requires AllDigits(d)
  {
    if sign == "-" then -(DecimalValue(d) as int) else DecimalValue(d)
  }

  /** The sign a text starts with, or "". */
  function SignPart(t: string): (r: string)
    ensures r == "" || r == "+" || r == "-"
    ensures |r| <= |t| && r == t[..|r|]
  {
    if |t| > 0 && (t[0] == '-' || t[0] == '+') then t[..1] else ""
  }

  /** `t` without its leading blanks. */
  function DropBlanks(t: string): (r: string)
    ensures |r| <= |t|
  {
    if |t| > 0 && t[0] in Whitespace then DropBlanks(t[1..]) else t
  }

  /** `t` is its leading blanks followed by `DropBlanks(t)`, which starts with no blank. */
  lemma {:induction false} DropBlanksSplit(t: string)
    ensures |DropBlanks(t)| <= |t| && t == t[..|t| - |DropBlanks(t)|] + DropBlanks(t)
    ensures forall i | 0 <= i < |t| - |DropBlanks(t)| :: t[i] in Whitespace
    ensures DropBlanks(t) != [] ==> DropBlanks(t)[0] !in Whitespace
  {
    if |t| > 0 && t[0] in Whitespace {
      var u := t[1..];
      DropBlanksSplit(u);
      var d := DropBlanks(u);
      assert DropBlanks(t) == d;
      var k := |u| - |d|;
      assert u == u[..k] + d;
      assert t[..k + 1] == [t[0]] + u[..k];
      assert t == [t[0]] + u;
      forall i | 0 <= i < k + 1 ensures t[i] in Whitespace {
        if i > 0 {
          assert t[i] == u[i - 1];
        }
      }
    }
  }

  /** `int()` of text without surrounding blanks: the sign, blanks, then digits only. */
  function ParseStripped(t: string): Option<int> {
    var sign := SignPart(t);
    var d := DropBlanks(t[|sign|..]);
    if |d| >= 1 && AllDigits(d) then Some(Signed(sign, d)) else None
  }

  /** What `ParseStripped` accepts splits into a sign, blanks and digits. */
  lemma StrippedParts(t: string)
    requires t == [] || t[0] !in Whitespace
    ensures ParseStripped(t).Some? ==> exists sign, w, d | SignedDigits(sign, w, d) ::
      t == sign + w + d && ParseStripped(t).value == Signed(sign, d)
  {
    var sign := SignPart(t);
    var rest := t[|sign|..];
    var d := DropBlanks(rest);
    var w := rest[..|rest| - |d|];
    assert ParseStripped(t) == if |d| >= 1 && AllDigits(d) then Some(Signed(sign, d)) else None;
    if |d| >= 1 && AllDigits(d) {
      Parts(t, sign, rest, w, d);
    }
  }

  /** The pieces `ParseStripped` cuts an accepted text into are a sign, blanks and digits. */
  lemma Parts(t: string, sign: string, rest: string, w: string, d: string)
    requires t == [] || t[0] !in Whitespace
    requires sign == SignPart(t) && rest == t[|sign|..] && d == DropBlanks(rest) && w == rest[..|rest| - |d|]
    requires |d| >= 1 && AllDigits(d)
    ensures SignedDigits(sign, w, d) && t == sign + w + d
  {
    DropBlanksSplit(rest);
    assert rest == w + d;
    if sign == "" {
      assert rest == t && t[0] !in Whitespace;
      assert DropBlanks(t) == t;
      assert w == [];
    } else {
      forall c | c in w
        ensures c in Whitespace
      {
        var i :| 0 <= i < |w| && w[i] == c;
        assert rest[i] == c;
      }
    }
  }

  /**
   * Python 2's `int(s)` on a byte string: blanks, one optional sign, blanks
   * again (`PyOS_strtol` skips them after the sign), digits, blanks. A NUL
   * byte anywhere is refused ("null byte in argument for int()").
   */
  function ParseInt(s: string): (r: Option<int>)
    ensures r.Some? ==> '\0' !in s
    ensures r.Some? ==> r == ParseStripped(Strip(s, Whitespace))
  {
    if '\0' in s then None else ParseStripped(Strip(s, Whitespace))
  }

  /** Only text whose stripped form is a sign, blanks and digits parses, and to their value. */
  lemma ParseIntParts(s: string)
    ensures ParseInt(s).Some? ==> '\0' !in s && exists sign, w, d | SignedDigits(sign, w, d) ::
      Strip(s, Whitespace) == sign + w + d && ParseInt(s).value == Signed(sign, d)
  {
    StrippedParts(Strip(s, Whitespace));
  }

  /** Blanks before a text that starts with no blank are what `DropBlanks` removes. */
  lemma {:induction false} DropBlanksBefore(w: string, d: string)
    requires forall c | c in w :: c in Whitespace
    requires |d| >= 1 && d[0] !in Whitespace
    ensures DropBlanks(w + d) == d
  {
    if w == [] {
      assert w + d == d;
    } else {
      assert w[0] in w;
      assert (w + d)[1..] == w[1..] + d;
      assert forall c | c in w[1..] :: c in w;
      DropBlanksBefore(w[1..], d);
    }
  }

  /** Text without NUL whose stripped form is a sign, blanks and digits parses as their value. */
  lemma ParseIntOfShape(s: string, sign: string, w: string, d: string)
    requires '\0' !in s
    requires SignedDigits(sign, w, d) && Strip(s, Whitespace) == sign + w + d
    ensures ParseInt(s) == Some(Signed(sign, d))
  {
    StrippedOfShape(Strip(s, Whitespace), sign, w, d);
  }

  lemma StrippedOfShape(t: string, sign: string, w: string, d: string)
    requires SignedDigits(sign, w, d) && t == sign + w + d
    ensures ParseStripped(t) == Some(Signed(sign, d))
  {
    assert IsDigit(d[0]);
    if sign == "" {
      assert t == d;
      assert SignPart(t) == "";
      assert DropBlanks(d) == d;
    } else {
      assert t[0] == sign[0];
      assert SignPart(t) == sign;
      assert t[1..] == w + d;
      DropBlanksBefore(w, d);
    }
  }

  /** `int('- 5') == -5`: a blank after the minus sign is skipped, whatever the blank and the digits. */
  lemma BlankAfterSign(s: string, blank: char, d: string)
    requires blank in Whitespace && |d| >= 1 && AllDigits(d)
    requires s == ['-', blank] + d
    ensures ParseInt(s) == Some(-(DecimalValue(d) as int))
  {
    assert s[0] == '-' && s[|s| - 1] == d[|d| - 1];
    StripSolid(s);
    assert !IsDigit('\0');
    assert s == "-" + [blank] + d;
    ParseIntOfShape(s, "-", [blank], d);
    assert Signed("-", d) == -(DecimalValue(d) as int);
  }

  /** `int(str(i)) == i`, also with a trailing newline as `readlines` leaves it. */
  lemma ParseIntRoundTrip(i: int, tail: string)
    requires tail == "" || tail == "\n"
    ensures ParseInt(IntToDecimal(i) + tail) == Some(i)
  {
    if i < 0 {
      NegativeRoundTrip(i, tail);
    } else {
      NaturalRoundTrip(i, tail);
    }
  }

  lemma NaturalRoundTrip(i: int, tail: string)
    requires i >= 0
    requires tail == "" || tail == "\n"
    ensures ParseInt(IntToDecimal(i) + tail) == Some(i)
  {
    var d := NatToDecimal(i);
    DecimalRoundTrip(i);
    StripDecimal(d, tail);
    assert !IsDigit('\0');
    ParseDigits(d + tail, d);
  }

  lemma NegativeRoundTrip(i: int, tail: string)
    requires i < 0
    requires tail == "" || tail == "\n"
    ensures ParseInt(IntToDecimal(i) + tail) == Some(i)
  {
    var n: nat := -i;
    var d := NatToDecimal(n);
    DecimalRoundTrip(n);
    var s := "-" + d;
    assert s == IntToDecimal(i);
    assert s[|s| - 1] == d[|d| - 1];
    StripDecimal(s, tail);
    assert s[1..] == d;
    assert !IsDigit('\0');
    ParseNegative(s + tail, s);
  }

  /** Text that strips to plain digits parses as their value. */
  lemma ParseDigits(s: string, t: string)
    requires '\0' !in s && Strip(s, Whitespace) == t
    requires |t| >= 1 && AllDigits(t)
    ensures ParseInt(s) == Some(DecimalValue(t))
  {
    assert t == "" + "" + t;
    ParseIntOfShape(s, "", "", t);
  }

  /** Text that strips to a minus sign and digits parses as their negated value. */
  lemma ParseNegative(s: string, t: string)
    requires '\0' !in s && Strip(s, Whitespace) == t
    requires |t| >= 2 && t[0] == '-' && AllDigits(t[1..])
    ensures ParseInt(s) == Some(-(DecimalValue(t[1..]) as int))
  {
    assert t == "-" + "" + t[1..];
    ParseIntOfShape(s, "-", "", t[1..]);
    assert Signed("-", t[1..]) == -(DecimalValue(t[1..]) as int);
  }

  /** Stripping whitespace leaves a string that starts and ends with non-whitespace alone. */
  lemma StripSolid(s: string)
    requires |s| >= 1 && s[0] !in Whitespace && s[|s| - 1] !in Whitespace
    ensures Strip(s, Whitespace) == s
  {
    assert LStrip(s, Whitespace) == s;
    assert RStrip(s, Whitespace) == s;
  }

  /** A trailing newline is stripped away. */
  lemma StripNewline(s: string)
    requires |s| >= 1 && s[0] !in Whitespace && s[|s| - 1] !in Whitespace
    ensures Strip(s + "\n", Whitespace) == s
  {
    var u := s + "\n";
    assert u[0] == s[0];
    assert LStrip(u, Whitespace) == u;
    assert u[..|u| - 1] == s;
    assert RStrip(u, Whitespace) == RStrip(s, Whitespace);
    assert RStrip(s, Whitespace) == s;
  }

  /** Whitespace stripping leaves a signed decimal alone and removes one trailing newline. */
  lemma StripDecimal(s: string, tail: string)
    requires |s| >= 1 && IsDigit(s[|s| - 1]) && (s[0] == '-' || IsDigit(s[0]))
    requires tail == "" || tail == "\n"
    ensures Strip(s + tail, Whitespace) == s
  {
    if tail == "" {
      assert s + tail == s;
      StripSolid(s);
    } else {
      StripNewline(s);
    }
  }
}
