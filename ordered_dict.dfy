/**
 * A JavaScript plain object used as a dictionary with string keys: its own properties in
 * enumeration order. An assignment to an existing key keeps that key's place, an assignment to
 * a new key puts it last, and `delete` removes the key.
 */
module OrderedDict {
  import opened Wrappers

  type Dict<V> = seq<(string, V)>

  /** The keys, in enumeration order. */
  function Keys<V>(d: Dict<V>): (ks: seq<string>)
    ensures |ks| == |d|
    ensures forall i :: 0 <= i < |d| ==> ks[i] == d[i].0
  {
    if d == [] then [] else [d[0].0] + Keys(d[1..])
  }

  /** No key occurs twice: every JavaScript object satisfies this. */
  predicate DistinctKeys<V>(d: Dict<V>) {
    d == [] || (d[0].0 !in Keys(d[1..]) && DistinctKeys(d[1..]))
  }

  /** `d[k]`: the value stored under `k`, or None for `undefined`. */
  function Get<V>(d: Dict<V>, k: string): (r: Option<V>)
    ensures r.None? <==> k !in Keys(d)
    ensures r.Some? ==> exists i :: 0 <= i < |d| && d[i].0 == k && d[i].1 == r.value
  {
    if d == [] then None
    else if d[0].0 == k then Some(d[0].1)
    else Get(d[1..], k)
  }

  /** With distinct keys, the value at a position is the value stored under its key. */
  lemma {:induction false} GetAt<V>(d: Dict<V>, i: nat)
    requires DistinctKeys(d) && i < |d|
    ensures Get(d, d[i].0) == Some(d[i].1)
  {
    if i > 0 {
      assert d[1..][i - 1] == d[i];
      assert Keys(d[1..])[i - 1] == d[i].0;
      GetAt(d[1..], i - 1);
    }
  }

  /** `d[k] = v`. */
  function Put<V>(d: Dict<V>, k: string, v: V): (r: Dict<V>)
    ensures Get(r, k) == Some(v)
    ensures forall j :: j != k ==> Get(r, j) == Get(d, j)
    ensures Keys(r) == if k in Keys(d) then Keys(d) else Keys(d) + [k]
    ensures DistinctKeys(d) ==> DistinctKeys(r)
  {
    if d == [] then [(k, v)]
    else if d[0].0 == k then
      PutFirst(d, k, v);
      [(k, v)] + d[1..]
    else
      var rest := Put(d[1..], k, v);
      PutBehindFirstGet(d, k, v, rest);
      PutBehindFirstKeys(d, k, rest);
      PutBehindFirstDistinct(d, k, rest);
      [d[0]] + rest
  }

  /** The assignment to the first key replaces its value in place. */
  lemma PutFirst<V>(d: Dict<V>, k: string, v: V)
    requires d != [] && d[0].0 == k
    ensures Get([(k, v)] + d[1..], k) == Some(v)
    ensures forall j :: j != k ==> Get([(k, v)] + d[1..], j) == Get(d, j)
    ensures Keys([(k, v)] + d[1..]) == Keys(d)
    ensures DistinctKeys(d) ==> DistinctKeys([(k, v)] + d[1..])
  {
    assert ([(k, v)] + d[1..])[1..] == d[1..];
  }

  /** The assignment to a key behind the first keeps the first entry and assigns in the rest. */
  lemma PutBehindFirstGet<V>(d: Dict<V>, k: string, v: V, rest: Dict<V>)
    requires d != [] && d[0].0 != k
    requires Get(rest, k) == Some(v)
    requires forall j :: j != k ==> Get(rest, j) == Get(d[1..], j)
    ensures Get([d[0]] + rest, k) == Some(v)
    ensures forall j :: j != k ==> Get([d[0]] + rest, j) == Get(d, j)
  {
    ConsGet(d[0], rest);
  }

  /** The key order after an assignment behind the first entry. */
  lemma PutBehindFirstKeys<V>(d: Dict<V>, k: string, rest: Dict<V>)
    requires d != [] && d[0].0 != k
    requires Keys(rest) == if k in Keys(d[1..]) then Keys(d[1..]) else Keys(d[1..]) + [k]
    ensures Keys([d[0]] + rest) == if k in Keys(d) then Keys(d) else Keys(d) + [k]
  {
    ConsKeys(d[0], rest);
    assert Keys(d) == [d[0].0] + Keys(d[1..]);
    assert k in Keys(d) <==> k in Keys(d[1..]);
    if k !in Keys(d) {
      assert Keys([d[0]] + rest) == [d[0].0] + (Keys(d[1..]) + [k]) == Keys(d) + [k];
    }
  }

  /** An assignment behind the first entry keeps the keys distinct. */
  lemma PutBehindFirstDistinct<V>(d: Dict<V>, k: string, rest: Dict<V>)
    requires d != [] && d[0].0 != k
    requires Keys(rest) == if k in Keys(d[1..]) then Keys(d[1..]) else Keys(d[1..]) + [k]
    requires DistinctKeys(d[1..]) ==> DistinctKeys(rest)
    ensures DistinctKeys(d) ==> DistinctKeys([d[0]] + rest)
  {
    if DistinctKeys(d) {
      ConsDistinct(d[0], rest);
    }
  }

  /** Lookup in a dictionary with one entry put in front. */
  lemma ConsGet<V>(x: (string, V), rest: Dict<V>)
    ensures forall j :: Get([x] + rest, j) == if x.0 == j then Some(x.1) else Get(rest, j)
  {
    assert ([x] + rest)[1..] == rest;
  }

  /** The keys of a dictionary with one entry put in front. */
  lemma ConsKeys<V>(x: (string, V), rest: Dict<V>)
    ensures Keys([x] + rest) == [x.0] + Keys(rest)
  {
    assert ([x] + rest)[1..] == rest;
  }

  /** An entry with a fresh key put in front keeps the keys distinct. */
  lemma ConsDistinct<V>(x: (string, V), rest: Dict<V>)
    requires x.0 !in Keys(rest) && DistinctKeys(rest)
    ensures DistinctKeys([x] + rest)
  {
    assert ([x] + rest)[1..] == rest;
  }

  /** `delete d[k]`. */
  function Delete<V>(d: Dict<V>, k: string): (r: Dict<V>)
    ensures Get(r, k) == None
    ensures forall j :: j != k ==> Get(r, j) == Get(d, j)
    ensures forall j :: j in Keys(r) <==> j in Keys(d) && j != k
    ensures |r| <= |d|
    ensures k !in Keys(d) ==> r == d
    ensures DistinctKeys(d) ==> DistinctKeys(r)
    ensures DistinctKeys(d) && k in Keys(d) ==> |r| == |d| - 1
    ensures DistinctKeys(d) && k in Keys(d) ==> exists i :: 0 <= i < |d| && d[i].0 == k && r == d[..i] + d[i + 1..]
  {
    if d == [] then []
    else if d[0].0 == k then
      var rest := Delete(d[1..], k);
      DeleteFirstSplice(d, k, rest);
      rest
    else
      var rest := Delete(d[1..], k);
      assert ([d[0]] + rest)[1..] == rest;
      assert Keys([d[0]] + rest) == [d[0].0] + Keys(rest);
      assert d == [d[0]] + d[1..];
      assert DistinctKeys(d) && k in Keys(d) ==>
        exists i :: 0 <= i < |d| && d[i].0 == k && [d[0]] + rest == d[..i] + d[i + 1..] by {
        if DistinctKeys(d) && k in Keys(d) {
          var j :| 0 <= j < |d[1..]| && d[1..][j].0 == k && rest == d[1..][..j] + d[1..][j + 1..];
          DeleteBehindFirstSplice(d, k, rest, j);
        }
      }
      [d[0]] + rest
  }

  /** Deleting the first key of a dictionary with distinct keys drops the first entry. */
  lemma DeleteFirstSplice<V>(d: Dict<V>, k: string, rest: Dict<V>)
    requires d != [] && d[0].0 == k
    requires k !in Keys(d[1..]) ==> rest == d[1..]
    ensures DistinctKeys(d) ==> exists i :: 0 <= i < |d| && d[i].0 == k && rest == d[..i] + d[i + 1..]
  {
    if DistinctKeys(d) {
      assert rest == d[..0] + d[0 + 1..];
    }
  }

  /** Deleting a key behind the first entry splices it out of the rest. */
  lemma DeleteBehindFirstSplice<V>(d: Dict<V>, k: string, rest: Dict<V>, j: nat)
    requires j < |d| - 1 && d[1..][j].0 == k && rest == d[1..][..j] + d[1..][j + 1..]
    ensures d[j + 1].0 == k && [d[0]] + rest == d[..j + 1] + d[j + 2..]
  {
    assert d[..j + 1] == [d[0]] + d[1..][..j];
    assert d[j + 2..] == d[1..][j + 1..];
  }

  /** Deleting the first key, when no other entry has it, leaves the other entries. */
  lemma DeleteOnlyFirst<V>(d: Dict<V>, k: string)
    requires d != [] && d[0].0 == k && k !in Keys(d[1..])
    ensures Delete(d, k) == d[1..]
  {
  }

  /** Re-keying the first of two entries: deleting its key and assigning a key the second entry
      does not have moves it behind the second. */
  lemma MoveFirstOfTwo<V>(a: string, x: V, b: string, y: V, k: string, v: V)
    requires a != b && k != b
    ensures Put(Delete([(a, x), (b, y)], a), k, v) == [(b, y), (k, v)]
  {
    var d := [(a, x), (b, y)];
    assert d[1..] == [(b, y)] && Keys([(b, y)]) == [b];
    DeleteOnlyFirst(d, a);
    PutShort([(b, y)], k, v);
    assert [(b, y)] + [(k, v)] == [(b, y), (k, v)];
  }

  /** Re-keying the only entry. */
  lemma MoveOnly<V>(a: string, x: V, k: string, v: V)
    ensures Put(Delete([(a, x)], a), k, v) == [(k, v)]
  {
    assert [(a, x)][1..] == [];
  }

  /** An assignment to a dictionary of at most one entry: the entry's own key replaces it, a
      new key goes behind it. */
  lemma PutShort<V>(d: Dict<V>, k: string, v: V)
    requires |d| <= 1
    ensures d != [] && d[0].0 == k ==> Put(d, k, v) == [(k, v)]
    ensures k !in Keys(d) ==> Put(d, k, v) == d + [(k, v)]
  {
    if d != [] {
      assert d[1..] == [];
    }
  }

  /** Every entry satisfies `p`. */
  predicate All<V>(d: Dict<V>, p: (string, V) -> bool) {
    forall i :: 0 <= i < |d| ==> p(d[i].0, d[i].1)
  }

  /** An assignment keeps a property of all entries when the new entry has it. */
  lemma {:induction false} PutKeepsAll<V>(d: Dict<V>, k: string, v: V, p: (string, V) -> bool)
    requires All(d, p) && p(k, v)
    ensures All(Put(d, k, v), p)
  {
    if d != [] && d[0].0 != k {
      PutKeepsAll(d[1..], k, v, p);
    }
  }

  /** A deletion keeps a property of all entries. */
  lemma {:induction false} DeleteKeepsAll<V>(d: Dict<V>, k: string, p: (string, V) -> bool)
    requires All(d, p)
    ensures All(Delete(d, k), p)
  {
    if d != [] {
      DeleteKeepsAll(d[1..], k, p);
    }
  }
}
