/** A JavaScript object used as a dictionary: string keys kept in insertion
    order. Assigning to a present key keeps its position, assigning to a new
    key appends it, and `delete` drops it. */
module JsObject {
  import opened Wrappers

  type Entries<V> = seq<(string, V)>

  function Keys<V>(m: Entries<V>): (ks: seq<string>)
    ensures |ks| == |m|
    ensures forall i :: 0 <= i < |m| ==> ks[i] == m[i].0
  {
    if m == [] then [] else [m[0].0] + Keys(m[1..])
  }

  predicate UniqueKeys<V>(m: Entries<V>) {
    forall i, j :: 0 <= i < j < |m| ==> m[i].0 != m[j].0
  }

  /** Position of key `k`, or |m| when it is absent. */
  function IndexOf<V>(m: Entries<V>, k: string): (i: nat)
    ensures i <= |m|
    ensures i < |m| ==> m[i].0 == k
    ensures forall j :: 0 <= j < i ==> m[j].0 != k
  {
    if m == [] then 0 else if m[0].0 == k then 0 else 1 + IndexOf(m[1..], k)
  }

  predicate Has<V>(m: Entries<V>, k: string) {
    IndexOf(m, k) < |m|
  }

  lemma HasIffInKeys<V>(m: Entries<V>, k: string)
    ensures Has(m, k) <==> k in Keys(m)
  {
    if k in Keys(m) {
      var i :| 0 <= i < |m| && Keys(m)[i] == k;
      assert IndexOf(m, k) <= i;
    }
  }

  /** `obj[k]`: the value stored under `k`, None for undefined. */
  function Get<V>(m: Entries<V>, k: string): (r: Option<V>)
    ensures r.Some? <==> Has(m, k)
  {
    var i := IndexOf(m, k);
    if i < |m| then Some(m[i].1) else None
  }

  /** Characterizes IndexOf by the first position holding the key. */
  lemma {:induction false} IndexOfIs<V>(m: Entries<V>, k: string, i: nat)
    requires i <= |m|
    requires i < |m| ==> m[i].0 == k
    requires forall j :: 0 <= j < i ==> m[j].0 != k
    ensures IndexOf(m, k) == i
  {
    if m != [] && m[0].0 != k {
      IndexOfIs(m[1..], k, i - 1);
    }
  }

  /** `obj[k] = v`. */
  function Put<V>(m: Entries<V>, k: string, v: V): (r: Entries<V>)
    ensures Get(r, k) == Some(v)
    ensures forall k' :: k' != k ==> Get(r, k') == Get(m, k')
  {
    var i := IndexOf(m, k);
    var r := if i < |m| then m[i := (k, v)] else m + [(k, v)];
    IndexOfIs(r, k, i);
    forall k' | k' != k
      ensures Get(r, k') == Get(m, k')
    {
      var a := IndexOf(m, k');
      if a < |m| {
        IndexOfIs(r, k', a);
      } else {
        IndexOfIs(r, k', |r|);
      }
    }
    r
  }

  /** Assigning to a present key keeps the key order; assigning to a new
      key appends it. Either way the keys stay distinct. */
  lemma PutKeys<V>(m: Entries<V>, k: string, v: V)
    ensures Has(m, k) ==> Keys(Put(m, k, v)) == Keys(m)
    ensures !Has(m, k) ==> Keys(Put(m, k, v)) == Keys(m) + [k]
    ensures UniqueKeys(m) ==> UniqueKeys(Put(m, k, v))
  {
  }

  /** `delete obj[k]`: every entry under another key stays, in order. */
  function Remove<V>(m: Entries<V>, k: string): (r: Entries<V>)
    ensures |r| <= |m|
    ensures forall i :: 0 <= i < |r| ==> r[i].0 != k
    ensures forall i :: 0 <= i < |r| ==> r[i] in m
  {
    if m == [] then []
    else if m[0].0 == k then Remove(m[1..], k)
    else
      var rest := Remove(m[1..], k);
      assert forall i :: 0 <= i < |rest| ==> rest[i] in m[1..];
      [m[0]] + rest
  }

  /** After `delete obj[k]`, `obj[k]` is undefined and every other key reads as before. */
  lemma {:induction false} RemoveGet<V>(m: Entries<V>, k: string, k': string)
    ensures Get(Remove(m, k), k') == if k' == k then None else Get(m, k')
  {
    var r := Remove(m, k);
    if k' == k {
      IndexOfIs(r, k', |r|);
    } else if m != [] {
      RemoveGet(m[1..], k, k');
      var b := IndexOf(m[1..], k');
      if m[0].0 == k' {
        IndexOfIs(m, k', 0);
        IndexOfIs(r, k', 0);
      } else {
        IndexOfIs(m, k', 1 + b);
        assert b < |m| - 1 ==> m[1 + b] == m[1..][b];
        if m[0].0 != k {
          var rest := Remove(m[1..], k);
          var a := IndexOf(rest, k');
          IndexOfIs(r, k', 1 + a);
          assert a < |rest| ==> r[1 + a] == rest[a];
        }
      }
    }
  }

  lemma {:induction false} RemoveUnique<V>(m: Entries<V>, k: string)
    requires UniqueKeys(m)
    ensures UniqueKeys(Remove(m, k))
  {
    if m != [] {
      RemoveUnique(m[1..], k);
      if m[0].0 != k {
        var rest := Remove(m[1..], k);
        forall i | 0 <= i < |rest|
          ensures rest[i].0 != m[0].0
        {
          var j :| 0 <= j < |m[1..]| && m[1..][j] == rest[i];
          assert m[1 + j] == rest[i];
        }
      }
    }
  }
}
