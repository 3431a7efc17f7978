/** Python's `OrderedDict` (and the insertion-ordered `dict`) with string keys, as a sequence
    of (key, value) pairs in insertion order. Assigning to a present key replaces its value in
    place; assigning to a new key appends it. */
module OrderedDicts {
  import opened Wrappers

  type Dict<V> = seq<(string, V)>

  function Keys<V>(d: Dict<V>): (ks: seq<string>)
    ensures |ks| == |d| && forall i | 0 <= i < |d| :: ks[i] == d[i].0
  {
    seq(|d|, i requires 0 <= i < |d| => d[i].0)
  }

  function Values<V>(d: Dict<V>): (vs: seq<V>)
    ensures |vs| == |d| && forall i | 0 <= i < |d| :: vs[i] == d[i].1
  {
    seq(|d|, i requires 0 <= i < |d| => d[i].1)
  }

  predicate DistinctKeys<V>(d: Dict<V>) {
    forall i, j | 0 <= i < j < |d| :: d[i].0 != d[j].0
  }

  /** Position of the first occurrence of `x` in `s`. */
  function IndexOf(s: seq<string>, x: string): (i: nat)
    requires x in s
    ensures i < |s| && s[i] == x && forall j | 0 <= j < i :: s[j] != x
  {
    if s[0] == x then 0 else 1 + IndexOf(s[1..], x)
  }

  /** The first occurrence is unaffected by what follows it. */
  lemma IndexOfPrefix(s: seq<string>, t: seq<string>, x: string)
    requires x in s
    ensures IndexOf(s + t, x) == IndexOf(s, x)
  {
    var i, j := IndexOf(s + t, x), IndexOf(s, x);
    assert (s + t)[j] == x;
    assert i < |s| ==> s[i] == x;
  }

  /** `d.get(k)` */
  function Get<V>(d: Dict<V>, k: string): (r: Option<V>)
    ensures r.Some? <==> k in Keys(d)
  {
    if k in Keys(d) then Some(d[IndexOf(Keys(d), k)].1) else None
  }

  /** In a dict with distinct keys, the value of the key at position `i` is the i-th value. */
  lemma GetAt<V>(d: Dict<V>, i: nat)
    requires DistinctKeys(d) && i < |d|
    ensures Get(d, d[i].0) == Some(d[i].1)
  {
    assert Keys(d)[i] == d[i].0;
  }

  /** `d[k] = v` */
  function Put<V>(d: Dict<V>, k: string, v: V): Dict<V> {
    if k in Keys(d) then d[IndexOf(Keys(d), k) := (k, v)] else d + [(k, v)]
  }

  /** Assigning a key appends it when it is new and keeps its place otherwise. */
  lemma PutKeys<V>(d: Dict<V>, k: string, v: V)
    ensures Keys(Put(d, k, v)) == (if k in Keys(d) then Keys(d) else Keys(d) + [k])
    ensures k !in Keys(d) ==> Put(d, k, v) == d + [(k, v)]
  {
    if k in Keys(d) {
      assert Keys(d[IndexOf(Keys(d), k) := (k, v)]) == Keys(d);
    } else {
      assert Keys(d + [(k, v)]) == Keys(d) + [k];
    }
  }

  /** Assigning a key appends it when it is new and keeps its place otherwise; the key then
      holds the new value and every other key keeps its value. */
  lemma PutSpec<V>(d: Dict<V>, k: string, v: V)
    ensures var r := Put(d, k, v);
      && Keys(r) == (if k in Keys(d) then Keys(d) else Keys(d) + [k])
      && (k !in Keys(d) ==> r == d + [(k, v)])
      && Get(r, k) == Some(v)
      && (forall k' | k' != k :: Get(r, k') == Get(d, k'))
      && (DistinctKeys(d) ==> DistinctKeys(r))
  {
    PutKeys(d, k, v);
    if k !in Keys(d) {
      forall k' | k' in Keys(d) ensures IndexOf(Keys(d + [(k, v)]), k') == IndexOf(Keys(d), k') {
        IndexOfPrefix(Keys(d), [k], k');
      }
    }
  }

  /** Assigns the pairs of `ps` one after the other, starting from an empty dict. */
  function PutAll<V>(ps: seq<(string, V)>): (d: Dict<V>)
    ensures DistinctKeys(d)
  {
    if ps == [] then [] else Put(PutAll(ps[..|ps| - 1]), ps[|ps| - 1].0, ps[|ps| - 1].1)
  }

  /** Assigning pairs whose keys are distinct builds exactly those pairs, in that order. */
  lemma {:induction false} PutAllDistinct<V>(ps: seq<(string, V)>)
    requires DistinctKeys(ps)
    ensures PutAll(ps) == ps
  {
    if ps != [] {
      var init := ps[..|ps| - 1];
      PutAllDistinct(init);
      assert ps[|ps| - 1].0 !in Keys(init);
      assert ps == init + [ps[|ps| - 1]];
    }
  }

  /** Reassigning a key its present value changes nothing. */
  lemma PutPresent<V>(d: Dict<V>, i: nat)
    requires DistinctKeys(d) && i < |d|
    ensures Put(d, d[i].0, d[i].1) == d
  {
    assert Keys(d)[i] == d[i].0;
    assert IndexOf(Keys(d), d[i].0) == i;
  }

  /** Assigning one more pair is one more `Put`. */
  lemma PutAllSnoc<V>(ps: seq<(string, V)>, p: (string, V))
    ensures PutAll(ps + [p]) == Put(PutAll(ps), p.0, p.1)
  {
    assert (ps + [p])[..|ps|] == ps;
  }

  /** `zip(a, b)` */
  function Zip<A, B>(a: seq<A>, b: seq<B>): (z: seq<(A, B)>)
    ensures |z| == if |a| < |b| then |a| else |b|
    ensures forall i | 0 <= i < |z| :: z[i] == (a[i], b[i])
  {
    var n := if |a| < |b| then |a| else |b|;
    seq(n, i requires 0 <= i < n => (a[i], b[i]))
  }

  /** Zipping one more position appends one more pair. */
  lemma ZipSnoc<A, B>(a: seq<A>, b: seq<B>, j: nat)
    requires j < |a| && j < |b|
    ensures Zip(a[..j + 1], b[..j + 1]) == Zip(a[..j], b[..j]) + [(a[j], b[j])]
  {
  }

  /** Assigning the zipped pairs one position further is one more `Put`. */
  lemma PutAllZipSnoc<V>(a: seq<string>, b: seq<V>, j: nat)
    requires j < |a| && j < |b|
    ensures PutAll(Zip(a[..j + 1], b[..j + 1])) == Put(PutAll(Zip(a[..j], b[..j])), a[j], b[j])
  {
    ZipSnoc(a, b, j);
    PutAllSnoc(Zip(a[..j], b[..j]), (a[j], b[j]));
  }

  /** The first `n` keys assigned their values, one `Put` after the other. */
  function Assigned<V>(keys: seq<string>, vals: seq<V>, n: nat): Dict<V>
    requires n <= |keys| && n <= |vals|
  {
    if n == 0 then [] else Put(Assigned(keys, vals, n - 1), keys[n - 1], vals[n - 1])
  }

  lemma {:induction false} AssignedIsPutAll<V>(keys: seq<string>, vals: seq<V>, n: nat)
    requires n <= |keys| && n <= |vals|
    ensures Assigned(keys, vals, n) == PutAll(Zip(keys[..n], vals[..n]))
  {
    if n > 0 {
      AssignedIsPutAll(keys, vals, n - 1);
      PutAllZipSnoc(keys, vals, n - 1);
    }
  }
}
