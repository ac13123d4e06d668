/** `Object.entries(dailyWorkTime).sort().reverse()`: the default array sort
    compares the entries as strings, `date,seconds`, by character codes;
    reversing it lists them from the greatest string down. */
module JsSort {
  import opened Text

  /** `a < b` as JavaScript compares strings: at the first differing
      character, or a proper prefix first. */
  predicate Below(a: string, b: string)
    decreases |a|
  {
    if |a| == 0 then |b| > 0
    else if |b| == 0 then false
    else if a[0] != b[0] then a[0] < b[0]
    else Below(a[1..], b[1..])
  }

  lemma {:induction false} BelowIrreflexive(a: string)
    ensures !Below(a, a)
    decreases |a|
  {
    if |a| > 0 {
      BelowIrreflexive(a[1..]);
    }
  }

  /** Two different strings are ordered one way or the other. */
  lemma {:induction false} BelowTotal(a: string, b: string)
    ensures a == b || Below(a, b) || Below(b, a)
    decreases |a|
  {
    if |a| > 0 && |b| > 0 && a[0] == b[0] {
      BelowTotal(a[1..], b[1..]);
      if a[1..] == b[1..] {
        assert a == [a[0]] + a[1..] && b == [b[0]] + b[1..];
      }
    }
  }

  lemma {:induction false} BelowTransitive(a: string, b: string, c: string)
    ensures Below(a, b) && Below(b, c) ==> Below(a, c)
    decreases |a|
  {
    if |a| > 0 && |b| > 0 && |c| > 0 && a[0] == b[0] && b[0] == c[0] {
      BelowTransitive(a[1..], b[1..], c[1..]);
    }
  }

  /** The string an entry `[date, seconds]` sorts by: `Array.prototype.toString`. */
  function SortKey(e: (string, int)): string {
    e.0 + "," + IntToString(e.1)
  }

  /** From the greatest key down. */
  predicate Descending(xs: seq<(string, int)>) {
    forall i, j :: 0 <= i < j < |xs| ==> !Below(SortKey(xs[i]), SortKey(xs[j]))
  }

  /** `x` placed before the first entry whose key is below its own. */
  function Insert(x: (string, int), xs: seq<(string, int)>): seq<(string, int)> {
    if xs == [] then [x]
    else if Below(SortKey(xs[0]), SortKey(x)) then [x] + xs
    else [xs[0]] + Insert(x, xs[1..])
  }

  /** The entries in descending key order. */
  function SortDescending(xs: seq<(string, int)>): seq<(string, int)> {
    if xs == [] then [] else Insert(xs[0], SortDescending(xs[1..]))
  }

  lemma {:induction false} InsertPermutes(x: (string, int), xs: seq<(string, int)>)
    ensures multiset(Insert(x, xs)) == multiset(xs) + multiset{x}
  {
    if xs != [] && !Below(SortKey(xs[0]), SortKey(x)) {
      InsertPermutes(x, xs[1..]);
      assert xs == [xs[0]] + xs[1..];
    }
  }

  /** An entry no key of `xs` is below is not below any key of `xs` sorted
      in with `x`, when it is not below `x` either. */
  lemma InsertBounded(y: (string, int), x: (string, int), xs: seq<(string, int)>)
    requires !Below(SortKey(y), SortKey(x))
    requires forall j :: 0 <= j < |xs| ==> !Below(SortKey(y), SortKey(xs[j]))
    ensures forall j :: 0 <= j < |Insert(x, xs)| ==> !Below(SortKey(y), SortKey(Insert(x, xs)[j]))
  {
    InsertPermutes(x, xs);
    forall j | 0 <= j < |Insert(x, xs)|
      ensures !Below(SortKey(y), SortKey(Insert(x, xs)[j]))
    {
      var z := Insert(x, xs)[j];
      assert z in multiset(Insert(x, xs));
      if z != x {
        assert z in multiset(xs);
        var k :| 0 <= k < |xs| && xs[k] == z;
      }
    }
  }

  lemma {:induction false} InsertSorted(x: (string, int), xs: seq<(string, int)>)
    requires Descending(xs)
    ensures Descending(Insert(x, xs))
  {
    if xs == [] {
    } else if Below(SortKey(xs[0]), SortKey(x)) {
      forall j | 0 <= j < |xs|
        ensures !Below(SortKey(x), SortKey(xs[j]))
      {
        var top, here := SortKey(xs[0]), SortKey(xs[j]);
        BelowTotal(top, here);
        BelowTransitive(SortKey(x), here, top);
        BelowTransitive(top, SortKey(x), top);
        BelowIrreflexive(top);
      }
    } else {
      InsertSorted(x, xs[1..]);
      InsertBounded(xs[0], x, xs[1..]);
    }
  }

  /** The daily-work block's order: descending, and the same entries. */
  lemma {:induction false} SortDescendingCorrect(xs: seq<(string, int)>)
    ensures Descending(SortDescending(xs))
    ensures multiset(SortDescending(xs)) == multiset(xs)
  {
    if xs != [] {
      SortDescendingCorrect(xs[1..]);
      InsertSorted(xs[0], SortDescending(xs[1..]));
      InsertPermutes(xs[0], SortDescending(xs[1..]));
      assert xs == [xs[0]] + xs[1..];
    }
  }
}
