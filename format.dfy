/** The two clock formatters: `formatTime` (timer face, `hh:mm:ss`) and
    `formatTimeDisplay` (section badges, `Xh Ym` / `Ym` / `Ss`). JavaScript
    numbers here are integers; Math.floor of a quotient by a positive divisor
    is Dafny's `/`, and JavaScript's `%` keeps the sign of the dividend. */
module Format {
  import opened Wrappers
  import opened Text

  /** JavaScript's `a % b` for a positive divisor: truncated remainder. */
  function JsRem(a: int, b: nat): (r: int)
    requires b > 0
    ensures a >= 0 ==> r == a % b
    ensures -(b as int) < r < b
    ensures a < 0 ==> r <= 0
  {
    if a >= 0 then a % b else -((-a) % b)
  }

  /** `String(n).padStart(2, '0')`. */
  function Pad2(t: string): (r: string)
    ensures |t| >= 2 ==> r == t
    ensures |t| < 2 ==> |r| == 2 && r[2 - |t|..] == t && forall k :: 0 <= k < 2 - |t| ==> r[k] == '0'
  {
    if |t| == 0 then "00" else if |t| == 1 then "0" + t else t
  }

  /** formatTime: hours, minutes and seconds, each at least two characters, joined by ':'. */
  function FormatTime(s: int): (r: string)
  {
    var h := s / 3600;
    var m := JsRem(s, 3600) / 60;
    var sec := JsRem(s, 60);
    Pad2(IntToString(h)) + ":" + Pad2(IntToString(m)) + ":" + Pad2(IntToString(sec))
  }

  /** formatTimeDisplay: hours and minutes from an hour on, minutes from a
      minute on, seconds below that (and for negative totals). */
  function FormatTimeDisplay(s: int): (r: string)
  {
    var h := s / 3600;
    var m := JsRem(s, 3600) / 60;
    var sec := JsRem(s, 60);
    if h > 0 then IntToString(h) + "h " + IntToString(m) + "m"
    else if m > 0 then IntToString(m) + "m"
    else IntToString(sec) + "s"
  }

  // ---------------------------------------------------------------- reading back

  predicate IsNumeral(ds: string) {
    |ds| >= 1 && forall k :: 0 <= k < |ds| ==> DigitValue(ds[k], 10) >= 0
  }

  /** Seconds in `h` hours, `m` minutes and `s` seconds. */
  function Hms(h: int, m: int, s: int): int {
    h * 3600 + m * 60 + s
  }

  /** The seconds an `h:m:s` face stands for, if `t` is one. */
  function ClockValue(t: string): Option<int> {
    var f := Split(t, ':');
    if |f| == 3 && IsNumeral(f[0]) && IsNumeral(f[1]) && IsNumeral(f[2])
    then Some(Hms(DigitsValue(f[0], 10), DigitsValue(f[1], 10), DigitsValue(f[2], 10)))
    else None
  }

  /** The seconds a badge `Xh Ym`, `Ym` or `Ss` stands for, if `t` is one. */
  function DisplayValue(t: string): Option<int> {
    if |t| < 2 then None
    else
      var body := t[..|t| - 1];
      if t[|t| - 1] == 's' then
        if IsNumeral(body) then Some(DigitsValue(body, 10)) else None
      else if t[|t| - 1] == 'm' then
        var f := Split(body, ' ');
        if |f| == 1 && IsNumeral(body) then Some(DigitsValue(body, 10) * 60)
        else if |f| == 2 && |f[0]| >= 2 && f[0][|f[0]| - 1] == 'h'
                && IsNumeral(f[0][..|f[0]| - 1]) && IsNumeral(f[1])
        then Some(DigitsValue(f[0][..|f[0]| - 1], 10) * 3600 + DigitsValue(f[1], 10) * 60)
        else None
      else None
  }

  lemma NumeralOf(n: nat)
    ensures IsNumeral(NatToString(n)) && DigitsValue(NatToString(n), 10) == n
    ensures IsNumeral(Pad2(NatToString(n))) && DigitsValue(Pad2(NatToString(n)), 10) == n
    ensures ':' !in Pad2(NatToString(n)) && ' ' !in NatToString(n) && 'h' !in NatToString(n)
  {
    var p := Pad2(NatToString(n));
    DigitsValueOfNat(n);
    if n < 10 {
      assert p == [DigitChar(0), DigitChar(n)];
      assert p[..1] == [DigitChar(0)];
    }
    assert forall k :: 0 <= k < |p| ==> '0' <= p[k] <= '9';
    assert forall k :: 0 <= k < |NatToString(n)| ==> '0' <= NatToString(n)[k] <= '9';
  }

  /** The three fields the formatters compute add back up to the total. */
  lemma HoursMinutesSeconds(s: nat)
    ensures 0 <= JsRem(s, 3600) / 60 < 60 && 0 <= JsRem(s, 60) < 60
    ensures s == (s / 3600) * 3600 + (JsRem(s, 3600) / 60) * 60 + JsRem(s, 60)
  {
    var r := s % 3600;
    assert s == (s / 3600) * 3600 + r;
    assert r == (r / 60) * 60 + r % 60;
    assert s % 60 == r % 60;
  }

  /** A face of three numerals reads back as their weighted sum. */
  lemma ClockOf(a: string, b: string, c: string, total: int)
    requires IsNumeral(a) && IsNumeral(b) && IsNumeral(c)
    requires ':' !in a && ':' !in b && ':' !in c
    requires Hms(DigitsValue(a, 10), DigitsValue(b, 10), DigitsValue(c, 10)) == total
    ensures ClockValue(a + ":" + b + ":" + c) == Some(total)
  {
    SplitThree(a, b, c, ':');
    ClockOfSplit(a + ":" + b + ":" + c, a, b, c, total);
  }

  lemma ClockOfSplit(t: string, a: string, b: string, c: string, total: int)
    requires IsNumeral(a) && IsNumeral(b) && IsNumeral(c)
    requires Split(t, ':') == [a, b, c]
    requires Hms(DigitsValue(a, 10), DigitsValue(b, 10), DigitsValue(c, 10)) == total
    ensures ClockValue(t) == Some(total)
  {
    var f := Split(t, ':');
    assert |f| == 3 && f[0] == a && f[1] == b && f[2] == c;
  }

  /** Rewriting the value inside `Some`, kept apart so the solver sees only this step. */
  lemma SomeEq(v: Option<int>, x: int, y: int)
    requires v == Some(x) && x == y
    ensures v == Some(y)
  {
  }

  /** A padded numeral. */
  lemma PadNumeral(n: nat)
    ensures IsNumeral(Pad2(NatToString(n)))
    ensures DigitsValue(Pad2(NatToString(n)), 10) == n
    ensures ':' !in Pad2(NatToString(n))
  {
    NumeralOf(n);
  }

  /** The timer face of three natural numbers. */
  function Face(h: nat, m: nat, sec: nat): string {
    Pad2(NatToString(h)) + ":" + Pad2(NatToString(m)) + ":" + Pad2(NatToString(sec))
  }

  /** The face of three natural numbers reads back as their weighted sum. */
  lemma FaceOf(h: nat, m: nat, sec: nat, total: int)
    requires h * 3600 + m * 60 + sec == total
    ensures ClockValue(Face(h, m, sec)) == Some(total)
  {
    PadNumeral(h);
    PadNumeral(m);
    PadNumeral(sec);
    ClockOf(Pad2(NatToString(h)), Pad2(NatToString(m)), Pad2(NatToString(sec)), total);
  }

  lemma FormatTimeFace(s: nat)
    ensures 0 <= JsRem(s, 3600) / 60 && 0 <= JsRem(s, 60)
    ensures FormatTime(s) == Face(s / 3600, JsRem(s, 3600) / 60, JsRem(s, 60))
  {
  }

  /** Reading the timer face gives back the seconds it was made from. */
  lemma FormatTimeRoundTrip(s: nat)
    ensures ClockValue(FormatTime(s)) == Some(s)
  {
    HoursMinutesSeconds(s);
    FormatTimeFace(s);
    FaceOf(s / 3600, JsRem(s, 3600) / 60, JsRem(s, 60), s);
  }

  /** A badge `<hours>h <minutes>m` split at its space. */
  lemma HoursBadgeOfSplit(t: string, hs: string, ms: string)
    requires |t| >= 2 && t[|t| - 1] == 'm' && Split(t[..|t| - 1], ' ') == [hs, ms]
    requires |hs| >= 2 && hs[|hs| - 1] == 'h' && IsNumeral(hs[..|hs| - 1]) && IsNumeral(ms)
    ensures DisplayValue(t) == Some(DigitsValue(hs[..|hs| - 1], 10) * 3600 + DigitsValue(ms, 10) * 60)
  {
  }

  /** A badge `<a>h <b>m` made of two numerals denoting `h` and `m`. */
  lemma HoursBadgeValue(a: string, b: string, h: nat, m: nat)
    requires IsNumeral(a) && IsNumeral(b) && ' ' !in a && ' ' !in b
    requires DigitsValue(a, 10) == h && DigitsValue(b, 10) == m
    ensures DisplayValue(a + "h " + b + "m") == Some(h * 3600 + m * 60)
  {
    var t := a + "h " + b + "m";
    var hs := a + "h";
    assert t[..|t| - 1] == hs + " " + b;
    assert hs[..|hs| - 1] == a;
    SplitTwo(hs, b, ' ');
    HoursBadgeOfSplit(t, hs, b);
    SomeEq(DisplayValue(t), DigitsValue(hs[..|hs| - 1], 10) * 3600 + DigitsValue(b, 10) * 60, h * 3600 + m * 60);
  }

  /** A decimal numeral without spaces. */
  lemma PlainNumeral(n: nat)
    ensures IsNumeral(NatToString(n)) && DigitsValue(NatToString(n), 10) == n && ' ' !in NatToString(n)
  {
    NumeralOf(n);
  }

  /** The badge of an hour count and a minute count reads back as their sum in seconds. */
  lemma HoursBadgeOf(h: nat, m: nat)
    ensures DisplayValue(NatToString(h) + "h " + NatToString(m) + "m") == Some(h * 3600 + m * 60)
  {
    PlainNumeral(h);
    PlainNumeral(m);
    HoursBadgeValue(NatToString(h), NatToString(m), h, m);
  }

  lemma MinutesBadgeOf(m: nat)
    ensures DisplayValue(NatToString(m) + "m") == Some(m * 60)
  {
    NumeralOf(m);
    var t := NatToString(m) + "m";
    assert t[..|t| - 1] == NatToString(m);
    SplitJoin([NatToString(m)], ' ');
  }

  lemma SecondsBadgeOf(sec: nat)
    ensures DisplayValue(NatToString(sec) + "s") == Some(sec)
  {
    NumeralOf(sec);
    var t := NatToString(sec) + "s";
    assert t[..|t| - 1] == NatToString(sec);
  }

  lemma DisplayHours(s: nat)
    requires s >= 3600
    ensures DisplayValue(FormatTimeDisplay(s)) == Some(s - s % 60)
  {
    HoursMinutesSeconds(s);
    var h, m := s / 3600, JsRem(s, 3600) / 60;
    assert FormatTimeDisplay(s) == NatToString(h) + "h " + NatToString(m) + "m";
    HoursBadgeOf(h, m);
    SomeEq(DisplayValue(FormatTimeDisplay(s)), h * 3600 + m * 60, s - s % 60);
  }

  lemma DisplayMinutes(s: nat)
    requires 60 <= s < 3600
    ensures DisplayValue(FormatTimeDisplay(s)) == Some(s - s % 60)
  {
    HoursMinutesSeconds(s);
    var m := JsRem(s, 3600) / 60;
    assert FormatTimeDisplay(s) == NatToString(m) + "m";
    MinutesBadgeOf(m);
    SomeEq(DisplayValue(FormatTimeDisplay(s)), m * 60, s - s % 60);
  }

  lemma DisplaySeconds(s: nat)
    requires s < 60
    ensures DisplayValue(FormatTimeDisplay(s)) == Some(s)
  {
    SecondsFace(s);
    SecondsBadgeOf(s);
  }

  lemma SecondsFace(s: nat)
    requires s < 60
    ensures FormatTimeDisplay(s) == NatToString(s) + "s"
  {
    assert s / 3600 == 0 && JsRem(s, 3600) / 60 == 0 && JsRem(s, 60) == s;
  }

  /** Reading a badge gives back the seconds it was made from, rounded down
      to the minute from a minute on. */
  lemma FormatTimeDisplayRoundTrip(s: nat)
    ensures DisplayValue(FormatTimeDisplay(s)) == Some(if s < 60 then s else s - s % 60)
  {
    if s >= 3600 {
      DisplayHours(s);
    } else if s >= 60 {
      DisplayMinutes(s);
    } else {
      DisplaySeconds(s);
    }
  }

  /** A negative total shows only its seconds field, JavaScript's `s % 60`,
      and an `s`: the hours and minutes of a negative number are never above
      zero. So -61 shows `-1s`, and a multiple of 60 such as -60 shows `0s`. */
  lemma FormatTimeDisplayNegative(s: int)
    requires s < 0
    ensures FormatTimeDisplay(s) == IntToString(JsRem(s, 60)) + "s"
  {
  }
}
