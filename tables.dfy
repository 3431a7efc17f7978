/** The numpy operations the core relies on, over curves (`seq<real>`) and row-major tables
    (`seq<seq<real>>`): boolean-mask row selection, column selection, horizontal stacking and
    `np.intersect1d`. */
module Tables {

  type Curve = seq<real>
  type Row = seq<real>
  type Table = seq<Row>

  /** Every row of `t` has exactly `width` cells (a 2-D numpy array of that width). */
  predicate Rectangular(t: Table, width: nat) {
    forall i | 0 <= i < |t| :: |t[i]| == width
  }

  /** Every row of `t` has a cell at column `j`. */
  predicate HasColumn(t: Table, j: nat) {
    forall i | 0 <= i < |t| :: j < |t[i]|
  }

  /** `s[mask]` for the mask `keep(s[0]), keep(s[1]), ...`: the elements that pass, in order. */
  function Filter<T>(s: seq<T>, keep: T -> bool): (r: seq<T>)
    ensures |r| <= |s|
    ensures forall i | 0 <= i < |r| :: r[i] in s && keep(r[i])
    ensures forall i | 0 <= i < |s| :: keep(s[i]) ==> s[i] in r
  {
    if s == [] then [] else (if keep(s[0]) then [s[0]] else []) + Filter(s[1..], keep)
  }

  /** Filtering distributes over concatenation; together with the one-element case this says
      that survivors keep their original relative order. */
  lemma {:induction false} FilterConcat<T>(a: seq<T>, b: seq<T>, keep: T -> bool)
    ensures Filter(a + b, keep) == Filter(a, keep) + Filter(b, keep)
  {
    if a == [] {
      assert a + b == b;
    } else {
      assert (a + b)[1..] == a[1..] + b;
      FilterConcat(a[1..], b, keep);
    }
  }

  /** Filtering twice with the same mask predicate is filtering once. */
  lemma {:induction false} FilterIdempotent<T>(s: seq<T>, keep: T -> bool)
    ensures Filter(Filter(s, keep), keep) == Filter(s, keep)
  {
    if s != [] {
      FilterIdempotent(s[1..], keep);
      var head := if keep(s[0]) then [s[0]] else [];
      FilterConcat(head, Filter(s[1..], keep), keep);
      assert Filter(head, keep) == head by {
        if keep(s[0]) { assert head[1..] == []; }
      }
    }
  }

  /** A filter that every element passes changes nothing. */
  lemma {:induction false} FilterKeepsAll<T>(s: seq<T>, keep: T -> bool)
    requires forall i | 0 <= i < |s| :: keep(s[i])
    ensures Filter(s, keep) == s
  {
    if s != [] {
      FilterKeepsAll(s[1..], keep);
    }
  }

  /** A filter keeps a strictly increasing sequence strictly increasing. */
  lemma {:induction false} FilterIncreasing(s: seq<real>, keep: real -> bool)
    requires StrictlyIncreasing(s)
    ensures StrictlyIncreasing(Filter(s, keep))
  {
    if s != [] {
      FilterIncreasing(s[1..], keep);
      var rest := Filter(s[1..], keep);
      assert forall i | 0 <= i < |rest| :: s[0] < rest[i] by {
        forall i | 0 <= i < |rest| ensures s[0] < rest[i] {
          assert rest[i] in s[1..];
        }
      }
    }
  }

  /** `s[np.isin(s, c)]`: the values of `s` that occur in `c`, in the order of `s`. */
  function Among(s: Curve, c: Curve): (r: Curve)
    ensures forall x :: x in r <==> x in s && x in c
  {
    Filter(s, x => x in c)
  }

  /** `t[:, j]` */
  function Column(t: Table, j: nat): (c: Curve)
    requires HasColumn(t, j)
    ensures |c| == |t| && forall i | 0 <= i < |t| :: c[i] == t[i][j]
  {
    seq(|t|, i requires 0 <= i < |t| => t[i][j])
  }

  /** `t[:, cols]` with a sequence of column indices. */
  function Project(t: Table, cols: seq<nat>): (p: Table)
    requires forall i, k | 0 <= i < |t| && 0 <= k < |cols| :: cols[k] < |t[i]|
    ensures |p| == |t| && Rectangular(p, |cols|)
    ensures forall i, k | 0 <= i < |t| && 0 <= k < |cols| :: p[i][k] == t[i][cols[k]]
  {
    seq(|t|, i requires 0 <= i < |t| => seq(|cols|, k requires 0 <= k < |cols| => t[i][cols[k]]))
  }

  /** `np.hstack((a, b))` for two tables with the same number of rows. */
  function Hstack(a: Table, b: Table): (r: Table)
    requires |a| == |b|
    ensures |r| == |a| && forall i | 0 <= i < |a| :: r[i] == a[i] + b[i]
  {
    seq(|a|, i requires 0 <= i < |a| => a[i] + b[i])
  }

  /** `c.reshape(-1, 1)`: a curve as a one-column table. */
  function AsColumn(c: Curve): (t: Table)
    ensures |t| == |c| && Rectangular(t, 1) && forall i | 0 <= i < |c| :: t[i] == [c[i]]
  {
    seq(|c|, i requires 0 <= i < |c| => [c[i]])
  }

  predicate StrictlyIncreasing(s: seq<real>) {
    forall i, j | 0 <= i < j < |s| :: s[i] < s[j]
  }

  /** Inserts `x` into a strictly increasing sequence, keeping it strictly increasing and free
      of duplicates. */
  function Insert(x: real, s: seq<real>): (r: seq<real>)
    requires StrictlyIncreasing(s)
    ensures StrictlyIncreasing(r)
    ensures forall y :: y in r <==> y == x || y in s
  {
    if s == [] then [x]
    else if x < s[0] then [x] + s
    else if x == s[0] then s
    else
      var rest := Insert(x, s[1..]);
      assert forall y | y in s[1..] :: s[0] < y;
      assert forall j | 0 <= j < |rest| :: rest[j] in rest && s[0] < rest[j];
      PrependIncreasing(s[0], rest);
      [s[0]] + rest
  }

  lemma PrependIncreasing(h: real, r: seq<real>)
    requires StrictlyIncreasing(r) && forall j | 0 <= j < |r| :: h < r[j]
    ensures StrictlyIncreasing([h] + r)
  {
    assert forall j | 0 < j < |[h] + r| :: ([h] + r)[j] == r[j - 1];
  }

  /** `np.unique(s)`: the distinct values of `s`, sorted. */
  function SortUnique(s: seq<real>): (r: seq<real>)
    ensures StrictlyIncreasing(r)
    ensures forall y :: y in r <==> y in s
  {
    if s == [] then []
    else
      var r := Insert(s[|s| - 1], SortUnique(s[..|s| - 1]));
      assert s == s[..|s| - 1] + [s[|s| - 1]];
      r
  }

  /** `np.intersect1d(a, b)`: the sorted, duplicate-free values present in both. */
  function Intersect1d(a: seq<real>, b: seq<real>): (r: seq<real>)
    ensures StrictlyIncreasing(r)
    ensures forall x :: x in r <==> x in a && x in b
  {
    SortUnique(Filter(a, x => x in b))
  }

  /** The values after the head of a strictly increasing sequence are all its values but the
      head. */
  lemma TailValues(s: seq<real>)
    requires StrictlyIncreasing(s) && s != []
    ensures forall x :: x in s[1..] <==> x in s && x != s[0]
  {
    assert s == [s[0]] + s[1..];
    forall x | x in s[1..] ensures x != s[0] {
      var j :| 0 <= j < |s[1..]| && s[1..][j] == x;
      assert s[j + 1] == x;
    }
  }

  /** A strictly increasing sequence is determined by the set of its values. */
  lemma {:induction false} StrictlyIncreasingUnique(a: seq<real>, b: seq<real>)
    requires StrictlyIncreasing(a) && StrictlyIncreasing(b)
    requires forall x :: x in a <==> x in b
    ensures a == b
  {
    assert a == [] || a[0] in a;
    assert b == [] || b[0] in b;
    if a != [] && b != [] {
      assert forall k | 0 <= k < |a| :: a[0] <= a[k];
      assert forall k | 0 <= k < |b| :: b[0] <= b[k];
      assert a[0] == b[0];
      TailValues(a);
      TailValues(b);
      StrictlyIncreasingUnique(a[1..], b[1..]);
      assert a == [a[0]] + a[1..] && b == [b[0]] + b[1..];
    }
  }
}
