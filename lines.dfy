/** Runs of lines: the inner loops of the markdown scanner and of the
    serializer advance a cursor over the lines a predicate accepts. */
module Lines {
  /** Index of the first line at or after `a` that `go` refuses: where the
      inner `while` loops of the scanner and of the serializer stop. */
  function RunEnd(lines: seq<string>, a: nat, go: string -> bool): (k: nat)
    requires a <= |lines|
    ensures a <= k <= |lines|
    ensures forall m :: a <= m < k ==> go(lines[m])
    ensures k == |lines| || !go(lines[k])
    decreases |lines| - a
  {
    if a == |lines| || !go(lines[a]) then a else RunEnd(lines, a + 1, go)
  }

  /** The lines `lines[a..k]` folded in order with `f`, starting from `init`. */
  function FoldLines<T>(lines: seq<string>, a: nat, k: nat, init: T, f: (string, T) -> T): T
    requires a <= k <= |lines|
    decreases k - a
  {
    if k == a then init else f(lines[k - 1], FoldLines(lines, a, k - 1, init, f))
  }

  /** The inner loops of the scanner: from line `a`, while `go` accepts the
      line, fold it into the accumulator. */
  method FoldRun<T>(lines: seq<string>, a: nat, init: T, f: (string, T) -> T, go: string -> bool) returns (k: nat, acc: T)
    requires a <= |lines|
    ensures k == RunEnd(lines, a, go) && acc == FoldLines(lines, a, k, init, f)
  {
    k, acc := a, init;
    while k < |lines| && go(lines[k])
      invariant a <= k <= |lines|
      invariant RunEnd(lines, k, go) == RunEnd(lines, a, go)
      invariant acc == FoldLines(lines, a, k, init, f)
    {
      acc := f(lines[k], acc);
      k := k + 1;
    }
  }

  /** A cursor advanced over the lines `go` accepts, from line `a`. */
  method Advance(lines: seq<string>, a: nat, go: string -> bool) returns (k: nat)
    requires a <= |lines|
    ensures k == RunEnd(lines, a, go)
  {
    k := a;
    while k < |lines| && go(lines[k])
      invariant a <= k <= |lines|
      invariant RunEnd(lines, k, go) == RunEnd(lines, a, go)
    {
      k := k + 1;
    }
  }
}
