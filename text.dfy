/** JavaScript string primitives the tracker relies on: trim, startsWith,
    split('\n') / join('\n'), parseInt and String(n) on integers. */
module Text {

  /** ECMAScript WhiteSpace and LineTerminator code points: what
      String.prototype.trim strips and what the regex class \s matches. */
  predicate IsSpace(c: char) {
    var n := c as int;
    n == 0x09 || n == 0x0A || n == 0x0B || n == 0x0C || n == 0x0D || n == 0x20
    || n == 0xA0 || n == 0x1680 || (0x2000 <= n <= 0x200A) || n == 0x2028
    || n == 0x2029 || n == 0x202F || n == 0x205F || n == 0x3000 || n == 0xFEFF
  }

  /** The characters the regex `.` refuses to match. */
  predicate IsLineTerminator(c: char) {
    var n := c as int;
    n == 0x0A || n == 0x0D || n == 0x2028 || n == 0x2029
  }

  predicate StartsWith(s: string, prefix: string) {
    |prefix| <= |s| && s[..|prefix|] == prefix
  }

  /** A `## ` section heading line, which a `### ` line is not. */
  predicate IsL2Line(l: string) {
    StartsWith(l, "## ") && !StartsWith(l, "### ")
  }

  /** Strings whose first characters differ do not start one another. */
  lemma PrefixMismatch(s: string, prefix: string)
    requires |s| >= 1 && |prefix| >= 1 && s[0] != prefix[0]
    ensures !StartsWith(s, prefix)
  {
    if |prefix| <= |s| {
      assert s[..|prefix|][0] == s[0] != prefix[0];
    }
  }

  /** Number of consecutive white-space characters of `s` from index `i`. */
  function SpaceRun(s: string, i: nat): (n: nat)
    requires i <= |s|
    ensures i + n <= |s|
    ensures forall k :: i <= k < i + n ==> IsSpace(s[k])
    ensures i + n == |s| || !IsSpace(s[i + n])
    decreases |s| - i
  {
    if i < |s| && IsSpace(s[i]) then 1 + SpaceRun(s, i + 1) else 0
  }

  function TrimStart(s: string): (r: string)
    ensures r == s[SpaceRun(s, 0)..]
    ensures r == [] || !IsSpace(r[0])
  {
    s[SpaceRun(s, 0)..]
  }

  /** String.prototype.trim: `s` without its leading and trailing white space. */
  function Trim(s: string): (r: string)
    ensures |r| <= |s|
    ensures r == [] || (!IsSpace(r[0]) && !IsSpace(r[|r| - 1]))
    decreases |s|
  {
    if |s| > 0 && IsSpace(s[0]) then Trim(s[1..])
    else if |s| > 0 && IsSpace(s[|s| - 1]) then Trim(s[..|s| - 1])
    else s
  }

  /** `t` is `s` with white space cut from both ends. */
  predicate CutBlanks(s: string, t: string, a: nat, b: nat) {
    && a <= b <= |s| && t == s[a..b]
    && (forall k :: 0 <= k < a ==> IsSpace(s[k]))
    && (forall k :: b <= k < |s| ==> IsSpace(s[k]))
  }

  /** What trimming cuts off is white space at both ends. */
  lemma {:induction false} TrimSlice(s: string)
    ensures exists a, b :: CutBlanks(s, Trim(s), a, b)
    decreases |s|
  {
    if |s| > 0 && IsSpace(s[0]) {
      TrimSlice(s[1..]);
      var a, b :| CutBlanks(s[1..], Trim(s[1..]), a, b);
      BlankInFront(s, Trim(s[1..]), a, b);
    } else if |s| > 0 {
      TrimCutsEnd(s);
      assert CutBlanks(s, Trim(s), 0, |Trim(s)|);
    } else {
      assert CutBlanks(s, Trim(s), 0, 0);
    }
  }

  lemma BlankInFront(s: string, t: string, a: nat, b: nat)
    requires |s| > 0 && IsSpace(s[0]) && CutBlanks(s[1..], t, a, b)
    ensures CutBlanks(s, t, a + 1, b + 1)
  {
    assert s[1..][a..b] == s[a + 1..b + 1];
    forall k | 0 <= k < a + 1
      ensures IsSpace(s[k])
    {
      if k > 0 {
        assert s[k] == s[1..][k - 1];
      }
    }
    forall k | b + 1 <= k < |s|
      ensures IsSpace(s[k])
    {
      assert s[k] == s[1..][k - 1];
    }
  }

  /** A string without white space at either end is its own trim. */
  lemma TrimFixed(s: string)
    requires s == [] || (!IsSpace(s[0]) && !IsSpace(s[|s| - 1]))
    ensures Trim(s) == s
  {
  }

  /** Trimming a string that starts with a non-blank only cuts its end, and
      keeps every character up to its last non-blank. */
  lemma {:induction false} TrimCutsEnd(s: string)
    requires |s| >= 1 && !IsSpace(s[0])
    ensures |Trim(s)| <= |s| && Trim(s) == s[..|Trim(s)|]
    ensures forall k :: 0 <= k < |s| && !IsSpace(s[k]) ==> k < |Trim(s)|
    decreases |s|
  {
    if IsSpace(s[|s| - 1]) {
      var u := s[..|s| - 1];
      TrimCutsEnd(u);
      assert forall k :: 0 <= k < |u| ==> u[k] == s[k];
    } else {
      assert s[..|s|] == s;
    }
  }

  /** Trimming a string that starts with a non-blank keeps that first character. */
  lemma TrimKeepsFirst(s: string)
    requires |s| >= 1 && !IsSpace(s[0])
    ensures |Trim(s)| >= 1 && Trim(s)[0] == s[0]
  {
    TrimCutsEnd(s);
  }


  /** Index of the first `c` in `s` at or after `from`, or |s|. */
  function IndexOfChar(s: string, c: char, from: nat): (k: nat)
    requires from <= |s|
    ensures from <= k <= |s|
    ensures forall j :: from <= j < k ==> s[j] != c
    ensures k < |s| ==> s[k] == c
    decreases |s| - from
  {
    if from == |s| || s[from] == c then from else IndexOfChar(s, c, from + 1)
  }

  lemma IndexOfCharIs(s: string, c: char, from: nat, k: nat)
    requires from <= k <= |s|
    requires forall j :: from <= j < k ==> s[j] != c
    requires k < |s| ==> s[k] == c
    ensures IndexOfChar(s, c, from) == k
    decreases k - from
  {
    if from < k {
      IndexOfCharIs(s, c, from + 1, k);
    }
  }

  // ---------------------------------------------------------------- split / join

  /** String.prototype.split(sep) for a one-character separator: the pieces
      between separators, never an empty list. */
  function Split(s: string, sep: char): (pieces: seq<string>)
    ensures |pieces| >= 1
    ensures forall i :: 0 <= i < |pieces| ==> sep !in pieces[i]
    decreases |s|
  {
    var k := IndexOfChar(s, sep, 0);
    if k == |s| then [s] else [s[..k]] + Split(s[k + 1..], sep)
  }

  /** Array.prototype.join(sep). */
  function Join(pieces: seq<string>, sep: char): string {
    if |pieces| == 0 then ""
    else if |pieces| == 1 then pieces[0]
    else pieces[0] + [sep] + Join(pieces[1..], sep)
  }

  /** `md.split('\n')`. */
  function SplitLines(s: string): (lines: seq<string>)
    ensures |lines| >= 1
    ensures forall i :: 0 <= i < |lines| ==> '\n' !in lines[i]
  {
    Split(s, '\n')
  }

  /** `lines.join('\n')`. */
  function JoinLines(lines: seq<string>): string {
    Join(lines, '\n')
  }

  lemma {:induction false} JoinSplit(s: string, sep: char)
    ensures Join(Split(s, sep), sep) == s
    decreases |s|
  {
    var k := IndexOfChar(s, sep, 0);
    if k < |s| {
      JoinSplit(s[k + 1..], sep);
      assert s == s[..k] + [sep] + s[k + 1..];
    }
  }

  /** Splitting joined separator-free pieces gives the pieces back. */
  lemma {:induction false} SplitJoin(pieces: seq<string>, sep: char)
    requires |pieces| >= 1
    requires forall i :: 0 <= i < |pieces| ==> sep !in pieces[i]
    ensures Split(Join(pieces, sep), sep) == pieces
  {
    var a := pieces[0];
    if |pieces| == 1 {
      IndexOfCharIs(a, sep, 0, |a|);
    } else {
      SplitAt(a, Join(pieces[1..], sep), sep);
      SplitJoin(pieces[1..], sep);
      assert pieces == [a] + pieces[1..];
    }
  }

  /** A separator-free first piece is split off at the first separator. */
  lemma SplitAt(a: string, rest: string, sep: char)
    requires sep !in a
    ensures Split(a + [sep] + rest, sep) == [a] + Split(rest, sep)
  {
    var s := a + [sep] + rest;
    forall j | 0 <= j < |a| ensures s[j] != sep {
      assert s[j] == a[j];
    }
    IndexOfCharIs(s, sep, 0, |a|);
    assert s[|a| + 1..] == rest;
    assert s[..|a|] == a;
  }

  lemma JoinTwo(a: string, b: string, sep: char)
    ensures Join([a, b], sep) == a + [sep] + b
  {
    assert [a, b][1..] == [b];
  }

  lemma JoinThree(a: string, b: string, c: string, sep: char)
    ensures Join([a, b, c], sep) == a + [sep] + b + [sep] + c
  {
    assert [a, b, c][1..] == [b, c];
    JoinTwo(b, c, sep);
  }

  lemma SplitTwo(a: string, b: string, sep: char)
    requires sep !in a && sep !in b
    ensures Split(a + [sep] + b, sep) == [a, b]
  {
    JoinTwo(a, b, sep);
    SplitJoin([a, b], sep);
  }

  lemma SplitThree(a: string, b: string, c: string, sep: char)
    requires sep !in a && sep !in b && sep !in c
    ensures Split(a + [sep] + b + [sep] + c, sep) == [a, b, c]
  {
    JoinThree(a, b, c, sep);
    SplitJoin([a, b, c], sep);
  }

  lemma JoinSplitLines(s: string)
    ensures JoinLines(SplitLines(s)) == s
  {
    JoinSplit(s, '\n');
  }

  lemma SplitJoinLines(lines: seq<string>)
    requires |lines| >= 1
    requires forall i :: 0 <= i < |lines| ==> '\n' !in lines[i]
    ensures SplitLines(JoinLines(lines)) == lines
  {
    SplitJoin(lines, '\n');
  }

  // ---------------------------------------------------------------- numbers

  function DigitChar(d: nat): char
    requires d < 10
  {
    ('0' as int + d) as char
  }

  /** String(n) for a natural number: its decimal digits, no leading zero. */
  function NatToString(n: nat): (s: string)
    ensures |s| >= 1
    ensures forall k :: 0 <= k < |s| ==> '0' <= s[k] <= '9'
    ensures |s| > 1 ==> s[0] != '0'
  {
    if n < 10 then [DigitChar(n)] else NatToString(n / 10) + [DigitChar(n % 10)]
  }

  /** String(n) for an integer: decimal, with '-' for negative values. */
  function IntToString(n: int): string {
    if n < 0 then "-" + NatToString(-n) else NatToString(n)
  }

  /** The value of a digit character in base `radix` (10 or 16), or -1. */
  function DigitValue(c: char, radix: nat): int {
    if '0' <= c <= '9' then (if (c as int - '0' as int) < radix then c as int - '0' as int else -1)
    else if radix == 16 && 'a' <= c <= 'f' then c as int - 'a' as int + 10
    else if radix == 16 && 'A' <= c <= 'F' then c as int - 'A' as int + 10
    else -1
  }

  /** Length of the longest prefix of `s` made of digits in base `radix`. */
  function DigitRun(s: string, radix: nat): (n: nat)
    ensures n <= |s|
    ensures forall k :: 0 <= k < n ==> DigitValue(s[k], radix) >= 0
    ensures n == |s| || DigitValue(s[n], radix) < 0
  {
    if |s| > 0 && DigitValue(s[0], radix) >= 0 then 1 + DigitRun(s[1..], radix) else 0
  }

  /** The number a string of digits denotes in base `radix`. */
  function DigitsValue(s: string, radix: nat): nat
    requires forall k :: 0 <= k < |s| ==> DigitValue(s[k], radix) >= 0
  {
    if |s| == 0 then 0
    else
      var init := s[..|s| - 1];
      var high: nat := DigitsValue(init, radix);
      var low: nat := DigitValue(s[|s| - 1], radix);
      high * radix + low
  }

  /** `parseInt(s) || 0` with no radix: leading white space, an optional sign,
      an optional 0x/0X prefix for base 16, then the longest digit prefix;
      no digit at all (NaN) and a zero both give 0. */
  function ParseIntOr0(s: string): int {
    var t := TrimStart(s);
    if |t| > 0 && t[0] == '-' then -(Magnitude(t[1..]) as int)
    else if |t| > 0 && t[0] == '+' then Magnitude(t[1..])
    else Magnitude(t)
  }

  /** What parseInt reads after the sign: base 16 after 0x/0X, base 10
      otherwise, up to the first character that is not a digit. */
  function Magnitude(u: string): nat {
    var hex := |u| >= 2 && u[0] == '0' && (u[1] == 'x' || u[1] == 'X');
    var digits := if hex then u[2..] else u;
    var radix := if hex then 16 else 10;
    DigitsValue(digits[..DigitRun(digits, radix)], radix)
  }

  lemma {:induction false} DigitsValueOfNat(n: nat)
    ensures forall k :: 0 <= k < |NatToString(n)| ==> DigitValue(NatToString(n)[k], 10) >= 0
    ensures DigitsValue(NatToString(n), 10) == n
  {
    var s := NatToString(n);
    if n >= 10 {
      DigitsValueOfNat(n / 10);
      assert s[..|s| - 1] == NatToString(n / 10);
    }
  }

  /** Reading back what String(n) wrote gives n: the `Time:` round trip. */
  lemma ParseIntOfIntToString(n: int)
    ensures ParseIntOr0(IntToString(n)) == n
  {
    if n < 0 {
      ParseNegative(-n);
    } else {
      ParseNat(n);
    }
  }

  lemma ParseNat(m: nat)
    ensures ParseIntOr0(NatToString(m)) == m
  {
    var s := NatToString(m);
    DigitsValueOfNat(m);
    ParseIntDigits(s, |s|);
    assert s[..|s|] == s;
  }

  lemma ParseNegative(m: nat)
    ensures ParseIntOr0("-" + NatToString(m)) == -(m as int)
  {
    ParseMinus(NatToString(m));
    ParseNat(m);
  }

  /** A '-' before a numeral negates what parseInt reads. */
  lemma ParseMinus(u: string)
    requires |u| >= 1 && '0' <= u[0] <= '9'
    ensures ParseIntOr0("-" + u) == -ParseIntOr0(u)
  {
    var t := "-" + u;
    assert SpaceRun(t, 0) == 0 && SpaceRun(u, 0) == 0;
    assert TrimStart(t) == t && TrimStart(u) == u;
    assert t[1..] == u;
    assert ParseIntOr0(u) == Magnitude(u);
  }

  lemma {:induction false} DigitRunIs(t: string, radix: nat, n: nat)
    requires n <= |t|
    requires forall k :: 0 <= k < n ==> DigitValue(t[k], radix) >= 0
    requires n == |t| || DigitValue(t[n], radix) < 0
    ensures DigitRun(t, radix) == n
  {
    if n > 0 {
      DigitRunIs(t[1..], radix, n - 1);
    }
  }

  /** parseInt on text that starts with `n` decimal digits followed by
      something that is neither a digit nor an `x` reads those digits. */
  lemma ParseIntDigits(t: string, n: nat)
    requires 1 <= n <= |t|
    requires forall k :: 0 <= k < n ==> '0' <= t[k] <= '9'
    requires n == |t| || (DigitValue(t[n], 10) < 0 && t[n] != 'x' && t[n] != 'X')
    ensures forall k :: 0 <= k < n ==> DigitValue(t[k], 10) >= 0
    ensures ParseIntOr0(t) == DigitsValue(t[..n], 10)
  {
    assert !IsSpace(t[0]);
    assert SpaceRun(t, 0) == 0;
    assert TrimStart(t) == t;
    assert t[0] != '-' && t[0] != '+';
    assert !(|t| >= 2 && (t[1] == 'x' || t[1] == 'X'));
    DigitRunIs(t, 10, n);
  }

  /** ParseIntDigits for the field of `t` that starts at `i`. */
  lemma ParseIntDigitsAt(t: string, i: nat, n: nat)
    requires i + 1 <= i + n <= |t|
    requires forall k :: i <= k < i + n ==> '0' <= t[k] <= '9'
    requires i + n == |t| || (DigitValue(t[i + n], 10) < 0 && t[i + n] != 'x' && t[i + n] != 'X')
    ensures forall k :: i <= k < i + n ==> DigitValue(t[k], 10) >= 0
    ensures ParseIntOr0(t[i..]) == DigitsValue(t[i..i + n], 10)
  {
    SliceOfSlice(t, i, n);
    ParseIntDigits(t[i..], n);
  }

  lemma SliceOfSlice(t: string, i: nat, n: nat)
    requires i + n <= |t|
    ensures t[i..][..n] == t[i..i + n]
    ensures forall k :: 0 <= k < n ==> t[i..][k] == t[i + k]
  {
  }

  /** `parseInt(s) || 0` is 0 when the text after the leading blanks does not
      start with a digit or a sign. */
  lemma ParseIntNonNumeric(s: string)
    requires var t := TrimStart(s); t == [] || (DigitValue(t[0], 10) < 0 && t[0] != '-' && t[0] != '+')
    ensures ParseIntOr0(s) == 0
  {
    var t := TrimStart(s);
    if t != [] {
      assert !(t[0] == '0');
      assert DigitRun(t, 10) == 0;
    }
  }
}
