/** Multi-source merge of log readings (utils/logscleanup.py, lines 106-185).

    Every source must carry the primary key curve. The key curves are intersected with
    `np.intersect1d`, folded right to left, which yields sorted, duplicate-free values. Each
    source's table then keeps the rows whose key reading is in the intersection, in its own row
    order, and the caller's list entry is replaced by the kept rows. The non-key columns of all
    sources are stacked side by side in source order, through a binary split of the source range,
    and the intersection is appended as the last column. The join is positional: row k of a
    source's kept rows sits next to row k of every other source's and to the k-th smallest common
    key. */
module LogsMerge {
  import opened Wrappers
  import opened Tables
  import opened OrderedDicts

  datatype MergeError =
    | MissingPrimaryKey(key: string, source: nat)  // ValueError naming the 1-based source
    | NoSources                                     // IndexError: `S[len(S)-1]` of no sources
    | StackFailure     // `_stack`: IndexError on a key-only source, ValueError on unequal row counts
    | KeyRowMismatch   // final `np.hstack`: stacked rows differ from the number of common keys

  /** What the caller hands over: each source's dict has distinct keys (it is a dict) and its
      table has one column per key, in key order. */
  predicate Shaped(dicts: seq<Dict<Curve>>, tables: seq<Table>) {
    && |dicts| == |tables|
    && forall s | 0 <= s < |dicts| :: DistinctKeys(dicts[s]) && Rectangular(tables[s], |dicts[s]|)
  }

  predicate KeyPresent(dicts: seq<Dict<Curve>>, key: string) {
    forall s | 0 <= s < |dicts| :: key in Keys(dicts[s])
  }

  /** The first source without the primary key. */
  function FirstMissing(dicts: seq<Dict<Curve>>, key: string): (i: nat)
    requires !KeyPresent(dicts, key)
    ensures i < |dicts| && key !in Keys(dicts[i])
    ensures forall s | 0 <= s < i :: key in Keys(dicts[s])
  {
    if key !in Keys(dicts[0]) then 0
    else
      assert forall s | 0 < s < |dicts| :: dicts[1..][s - 1] == dicts[s];
      1 + FirstMissing(dicts[1..], key)
  }

  /** Position of the primary key among a source's curves. */
  function KeyIndex(d: Dict<Curve>, key: string): (i: nat)
    requires key in Keys(d)
    ensures i < |d| && d[i].0 == key
  {
    IndexOf(Keys(d), key)
  }

  /** `non_primary_key_idxes`: the (name, position) of every curve other than the key, in
      curve order. */
  function NonKeyColumns(ks: seq<string>, key: string): (r: seq<(string, nat)>)
    ensures forall k | 0 <= k < |r| :: r[k].1 < |ks| && ks[r[k].1] == r[k].0 && r[k].0 != key
    ensures |r| <= |ks|
  {
    if ks == [] then []
    else
      var n := |ks| - 1;
      var init := NonKeyColumns(ks[..n], key);
      assert forall p | 0 <= p < n :: ks[..n][p] == ks[p];
      init + (if ks[n] != key then [(ks[n], n)] else [])
  }

  /** Every curve other than the key is listed, with its position. */
  lemma {:induction false} NonKeyListed(ks: seq<string>, key: string)
    ensures forall p | 0 <= p < |ks| && ks[p] != key :: (ks[p], p) in NonKeyColumns(ks, key)
  {
    if ks != [] {
      var n := |ks| - 1;
      NonKeyListed(ks[..n], key);
      assert forall p | 0 <= p < n :: ks[..n][p] == ks[p];
    }
  }

  /** With distinct curve names, every curve but the key is listed; so a source whose only
      curve is the key has no non-key column, and every other source has one. */
  lemma {:induction false} NonKeyCount(ks: seq<string>, key: string)
    requires forall i, j | 0 <= i < j < |ks| :: ks[i] != ks[j]
    ensures |NonKeyColumns(ks, key)| == if key in ks then |ks| - 1 else |ks|
  {
    if ks != [] {
      var n := |ks| - 1;
      NonKeyCount(ks[..n], key);
      assert ks == ks[..n] + [ks[n]];
      if ks[n] == key {
        assert key !in ks[..n];
      }
    }
  }

  function KeyCurves(dicts: seq<Dict<Curve>>, key: string): (S: seq<Curve>)
    requires KeyPresent(dicts, key)
    ensures |S| == |dicts| && forall s | 0 <= s < |dicts| :: Get(dicts[s], key) == Some(S[s])
  {
    seq(|dicts|, s requires 0 <= s < |dicts| => Get(dicts[s], key).value)
  }

  /** `_find`: intersects `result` with `S[n-1]`, then with `S[n-2]`, ..., then with `S[0]`. */
  function Find(S: seq<Curve>, result: Curve, n: nat): (r: Curve)
    requires n <= |S|
    decreases n
    ensures n > 0 || StrictlyIncreasing(result) ==> StrictlyIncreasing(r)
    ensures forall x :: x in r <==> x in result && forall i | 0 <= i < n :: x in S[i]
  {
    if n == 0 then result else Find(S, Intersect1d(S[n - 1], result), n - 1)
  }

  /** `_find_common_rows`: the sorted, duplicate-free values present in every curve. */
  function CommonRows(S: seq<Curve>): (r: Curve)
    requires |S| > 0
    ensures StrictlyIncreasing(r)
    ensures forall x :: x in r <==> forall i | 0 <= i < |S| :: x in S[i]
  {
    Find(S, S[|S| - 1], |S|)
  }

  /** The common rows depend only on which curves take part, not on their order or on repeats;
      in particular any reordering of the sources gives the same key curve. */
  lemma CommonRowsOrderFree(S: seq<Curve>, T: seq<Curve>)
    requires |S| > 0 && |T| > 0
    requires forall c :: c in S <==> c in T
    ensures CommonRows(S) == CommonRows(T)
  {
    var a, b := CommonRows(S), CommonRows(T);
    forall x ensures x in a <==> x in b {
      if x in a {
        forall j | 0 <= j < |T| ensures x in T[j] {
          assert T[j] in S;
        }
      }
      if x in b {
        forall j | 0 <= j < |S| ensures x in S[j] {
          assert S[j] in T;
        }
      }
    }
    StrictlyIncreasingUnique(a, b);
  }

  /** `np.isin(t[:, col], common)` used as a row mask. */
  function KeepRows(t: Table, col: nat, common: Curve): (r: Table)
    ensures forall i | 0 <= i < |r| :: r[i] in t && col < |r[i]| && r[i][col] in common
    ensures forall i | 0 <= i < |t| :: col < |t[i]| && t[i][col] in common ==> t[i] in r
  {
    Filter(t, (row: Row) => col < |row| && row[col] in common)
  }

  /** With no common key, no row is kept. */
  lemma {:induction false} KeepNoRows(t: Table, col: nat)
    ensures KeepRows(t, col, []) == []
  {
    if t != [] {
      KeepNoRows(t[1..], col);
    }
  }

  /** Each source's table after the row filter. */
  function Filtered(dicts: seq<Dict<Curve>>, tables: seq<Table>, key: string, common: Curve): (F: seq<Table>)
    requires Shaped(dicts, tables) && KeyPresent(dicts, key)
    ensures |F| == |tables|
    ensures forall s | 0 <= s < |F| :: Rectangular(F[s], |dicts[s]|)
  {
    seq(|tables|, s requires 0 <= s < |tables| => KeepRows(tables[s], KeyIndex(dicts[s], key), common))
  }

  function NonKeyLists(dicts: seq<Dict<Curve>>, key: string): (N: seq<seq<(string, nat)>>)
    ensures |N| == |dicts|
    ensures forall s | 0 <= s < |dicts| :: N[s] == NonKeyColumns(Keys(dicts[s]), key)
  {
    seq(|dicts|, s requires 0 <= s < |dicts| => NonKeyColumns(Keys(dicts[s]), key))
  }

  /** Every listed column exists in every row of its source's table. */
  predicate ColumnsExist(S: seq<Table>, N: seq<seq<(string, nat)>>) {
    && |S| == |N|
    && forall s, k, i | 0 <= s < |S| && 0 <= k < |N[s]| && 0 <= i < |S[s]| :: N[s][k].1 < |S[s][i]|
  }

  function ColumnIdx(cols: seq<(string, nat)>): (idx: seq<nat>)
    ensures |idx| == |cols| && forall k | 0 <= k < |cols| :: idx[k] == cols[k].1
  {
    seq(|cols|, k requires 0 <= k < |cols| => cols[k].1)
  }

  /** `S[s][:, col_idx]`: the listed columns of one source. */
  function Picked(S: seq<Table>, N: seq<seq<(string, nat)>>, s: nat): (p: Table)
    requires ColumnsExist(S, N) && s < |S|
    ensures |p| == |S[s]|
  {
    Project(S[s], ColumnIdx(N[s]))
  }

  /** Stacking succeeds iff every source in the range has a non-key column and all have as
      many rows as the first. */
  predicate StackOk(S: seq<Table>, N: seq<seq<(string, nat)>>, lo: nat, hi: nat)
    requires lo < hi <= |S| == |N|
  {
    && (forall s | lo <= s < hi :: |N[s]| > 0)
    && (forall s | lo <= s < hi :: |S[s]| == |S[lo]|)
  }

  /** Row `i` of the stacked columns of sources `lo` to `hi - 1`. */
  function StackedRow(S: seq<Table>, N: seq<seq<(string, nat)>>, lo: nat, hi: nat, i: nat): Row
    requires ColumnsExist(S, N) && lo <= hi <= |S|
    requires forall s | lo <= s < hi :: i < |S[s]|
    decreases hi
  {
    if hi == lo then [] else StackedRow(S, N, lo, hi - 1, i) + Picked(S, N, hi - 1)[i]
  }

  lemma {:induction false} StackedRowSplit(S: seq<Table>, N: seq<seq<(string, nat)>>, lo: nat, mid: nat, hi: nat, i: nat)
    requires ColumnsExist(S, N) && lo <= mid <= hi <= |S|
    requires forall s | lo <= s < hi :: i < |S[s]|
    ensures StackedRow(S, N, lo, hi, i) == StackedRow(S, N, lo, mid, i) + StackedRow(S, N, mid, hi, i)
    decreases hi
  {
    if hi > mid {
      StackedRowSplit(S, N, lo, mid, hi - 1, i);
    }
  }

  /** The stacked non-key columns of sources `lo` to `hi - 1`, as one table. */
  function StackedTable(S: seq<Table>, N: seq<seq<(string, nat)>>, lo: nat, hi: nat): (t: Table)
    requires ColumnsExist(S, N) && lo < hi <= |S|
    requires forall s | lo <= s < hi :: |S[s]| == |S[lo]|
    ensures |t| == |S[lo]|
  {
    seq(|S[lo]|, i requires 0 <= i < |S[lo]| => StackedRow(S, N, lo, hi, i))
  }

  /** `new_dict[name] = S[s][:, idx]` for each listed column of one source, in order. */
  function PutColumns(d: Dict<Curve>, t: Table, cols: seq<(string, nat)>): Dict<Curve>
    requires forall k, i | 0 <= k < |cols| && 0 <= i < |t| :: cols[k].1 < |t[i]|
  {
    if cols == [] then d
    else
      var n := |cols| - 1;
      Put(PutColumns(d, t, cols[..n]), cols[n].0, Column(t, cols[n].1))
  }

  /** The dict writes of sources `lo` to `hi - 1`, in source order. */
  function PutRange(d: Dict<Curve>, S: seq<Table>, N: seq<seq<(string, nat)>>, lo: nat, hi: nat): Dict<Curve>
    requires ColumnsExist(S, N) && lo <= hi <= |S|
    decreases hi
  {
    if hi == lo then d else PutColumns(PutRange(d, S, N, lo, hi - 1), S[hi - 1], N[hi - 1])
  }

  lemma {:induction false} PutRangeSplit(d: Dict<Curve>, S: seq<Table>, N: seq<seq<(string, nat)>>, lo: nat, mid: nat, hi: nat)
    requires ColumnsExist(S, N) && lo <= mid <= hi <= |S|
    ensures PutRange(d, S, N, lo, hi) == PutRange(PutRange(d, S, N, lo, mid), S, N, mid, hi)
    decreases hi
  {
    if hi > mid {
      PutRangeSplit(d, S, N, lo, mid, hi - 1);
    }
  }

  /** The inner loop of `_stack`: one dict write per listed column of source `s`. */
  method AssignColumns(d: Dict<Curve>, S: seq<Table>, N: seq<seq<(string, nat)>>, s: nat)
    returns (d': Dict<Curve>)
    requires ColumnsExist(S, N) && s < |S|
    ensures d' == PutColumns(d, S[s], N[s])
  {
    d' := d;
    var j := 0;
    while j < |N[s]|
      invariant 0 <= j <= |N[s]|
      invariant d' == PutColumns(d, S[s], N[s][..j])
    {
      assert N[s][..j + 1][..j] == N[s][..j];
      d' := Put(d', N[s][j].0, Column(S[s], N[s][j].1));
      j := j + 1;
    }
    assert N[s][..j] == N[s];
  }

  /** `_stack(S, non_primary_key_list, start, stop)` with the shared `new_dict` threaded
      through: stacks sources `start` to `stop` by splitting the range in two. */
  method Stack(S: seq<Table>, N: seq<seq<(string, nat)>>, start: nat, stop: nat, d: Dict<Curve>)
    returns (d': Dict<Curve>, r: Result<Table, MergeError>)
    requires ColumnsExist(S, N) && start <= stop < |S|
    ensures r.Ok? <==> StackOk(S, N, start, stop + 1)
    ensures r.Ok? ==> r.value == StackedTable(S, N, start, stop + 1)
    ensures r.Ok? ==> d' == PutRange(d, S, N, start, stop + 1)
    ensures r.Err? ==> r.error == StackFailure
    decreases stop - start, 1
  {
    if |N[start]| == 0 || |N[stop]| == 0 {
      return d, Err(StackFailure);
    }
    if start == stop {
      d', r := StackOne(S, N, start, d);
    } else if start == stop - 1 {
      d', r := StackTwo(S, N, start, d);
    } else {
      d', r := StackSplit(S, N, start, stop, d);
    }
  }

  /** `_stack`'s split case: both halves, then `np.hstack((left, right))`. */
  method StackSplit(S: seq<Table>, N: seq<seq<(string, nat)>>, start: nat, stop: nat, d: Dict<Curve>)
    returns (d': Dict<Curve>, r: Result<Table, MergeError>)
    requires ColumnsExist(S, N) && start + 1 < stop < |S|
    ensures r.Ok? <==> StackOk(S, N, start, stop + 1)
    ensures r.Ok? ==> r.value == StackedTable(S, N, start, stop + 1)
    ensures r.Ok? ==> d' == PutRange(d, S, N, start, stop + 1)
    ensures r.Err? ==> r.error == StackFailure
    decreases stop - start, 0
  {
    var middle := (start + stop) / 2;
    StackOkSplit(S, N, start, middle + 1, stop + 1);
    var dl, left := Stack(S, N, start, middle, d);
    if left.Err? {
      return dl, left;
    }
    var dr, right := Stack(S, N, middle + 1, stop, dl);
    if right.Err? {
      return dr, right;
    }
    d', r := StackJoin(S, N, start, middle + 1, stop + 1, d, dl, dr, left.value, right.value);
  }

  /** `_stack`'s case `start == stop`: the columns of one source. */
  method StackOne(S: seq<Table>, N: seq<seq<(string, nat)>>, s: nat, d: Dict<Curve>)
    returns (d': Dict<Curve>, r: Result<Table, MergeError>)
    requires ColumnsExist(S, N) && s < |S| && |N[s]| > 0
    ensures r.Ok? && StackOk(S, N, s, s + 1)
    ensures r.value == StackedTable(S, N, s, s + 1)
    ensures d' == PutRange(d, S, N, s, s + 1)
  {
    d' := AssignColumns(d, S, N, s);
    r := Ok(Picked(S, N, s));
    StackedSingle(S, N, s, d);
  }

  /** `_stack`'s case `start == stop - 1`: both sources' dict writes, then their columns side
      by side, which needs equal row counts. */
  method StackTwo(S: seq<Table>, N: seq<seq<(string, nat)>>, s: nat, d: Dict<Curve>)
    returns (d': Dict<Curve>, r: Result<Table, MergeError>)
    requires ColumnsExist(S, N) && s + 1 < |S| && |N[s]| > 0 && |N[s + 1]| > 0
    ensures r.Ok? <==> StackOk(S, N, s, s + 2)
    ensures r.Ok? ==> r.value == StackedTable(S, N, s, s + 2)
    ensures r.Ok? ==> d' == PutRange(d, S, N, s, s + 2)
    ensures r.Err? ==> r.error == StackFailure
  {
    d' := AssignColumns(d, S, N, s);
    d' := AssignColumns(d', S, N, s + 1);
    StackedPair(S, N, s, d);
    if |S[s]| != |S[s + 1]| {
      return d', Err(StackFailure);
    }
    r := Ok(Hstack(Picked(S, N, s), Picked(S, N, s + 1)));
  }

  /** The last step of `_stack`'s split case, `np.hstack((left, right))`: the halves join iff
      the whole range stacks, and then the joined table and the dict are those of the range. */
  method StackJoin(S: seq<Table>, N: seq<seq<(string, nat)>>, lo: nat, mid: nat, hi: nat,
                   d: Dict<Curve>, dl: Dict<Curve>, dr: Dict<Curve>, left: Table, right: Table)
    returns (d': Dict<Curve>, r: Result<Table, MergeError>)
    requires ColumnsExist(S, N) && lo < mid < hi <= |S|
    requires StackOk(S, N, lo, mid) && StackOk(S, N, mid, hi)
    requires left == StackedTable(S, N, lo, mid) && right == StackedTable(S, N, mid, hi)
    requires dl == PutRange(d, S, N, lo, mid) && dr == PutRange(dl, S, N, mid, hi)
    ensures r.Ok? <==> StackOk(S, N, lo, hi)
    ensures r.Ok? ==> r.value == StackedTable(S, N, lo, hi)
    ensures r.Ok? ==> d' == PutRange(d, S, N, lo, hi)
    ensures r.Err? ==> r.error == StackFailure
  {
    StackOkSplit(S, N, lo, mid, hi);
    if |left| != |right| {
      return dr, Err(StackFailure);
    }
    PutRangeSplit(d, S, N, lo, mid, hi);
    StackedSplit(S, N, lo, mid, hi);
    d', r := dr, Ok(Hstack(left, right));
  }

  lemma StackOkSplit(S: seq<Table>, N: seq<seq<(string, nat)>>, lo: nat, mid: nat, hi: nat)
    requires lo < mid < hi <= |S| == |N|
    ensures StackOk(S, N, lo, hi) <==> StackOk(S, N, lo, mid) && StackOk(S, N, mid, hi) && |S[lo]| == |S[mid]|
  {
  }

  lemma StackedSingle(S: seq<Table>, N: seq<seq<(string, nat)>>, s: nat, d: Dict<Curve>)
    requires ColumnsExist(S, N) && s < |S|
    ensures StackOk(S, N, s, s + 1) <==> |N[s]| > 0
    ensures StackedTable(S, N, s, s + 1) == Picked(S, N, s)
    ensures PutRange(d, S, N, s, s + 1) == PutColumns(d, S[s], N[s])
  {
    forall i | 0 <= i < |S[s]| ensures StackedRow(S, N, s, s + 1, i) == Picked(S, N, s)[i] {
      assert StackedRow(S, N, s, s, i) == [];
    }
  }

  lemma StackedPair(S: seq<Table>, N: seq<seq<(string, nat)>>, s: nat, d: Dict<Curve>)
    requires ColumnsExist(S, N) && s + 1 < |S|
    ensures StackOk(S, N, s, s + 2) <==> |N[s]| > 0 && |N[s + 1]| > 0 && |S[s]| == |S[s + 1]|
    ensures |S[s]| == |S[s + 1]| ==>
              StackedTable(S, N, s, s + 2) == Hstack(Picked(S, N, s), Picked(S, N, s + 1))
    ensures PutRange(d, S, N, s, s + 2) == PutColumns(PutColumns(d, S[s], N[s]), S[s + 1], N[s + 1])
  {
    assert PutRange(d, S, N, s, s) == d;
    forall i | 0 <= i < |S[s]| && |S[s]| == |S[s + 1]|
      ensures StackedRow(S, N, s, s + 2, i) == Picked(S, N, s)[i] + Picked(S, N, s + 1)[i]
    {
      assert StackedRow(S, N, s, s, i) == [];
    }
  }

  /** Stacking a range is stacking its two halves side by side. */
  lemma StackedSplit(S: seq<Table>, N: seq<seq<(string, nat)>>, lo: nat, mid: nat, hi: nat)
    requires ColumnsExist(S, N) && lo < mid < hi <= |S|
    requires forall s | lo <= s < hi :: |S[s]| == |S[lo]|
    ensures StackedTable(S, N, lo, hi) == Hstack(StackedTable(S, N, lo, mid), StackedTable(S, N, mid, hi))
  {
    forall i | 0 <= i < |S[lo]|
      ensures StackedRow(S, N, lo, hi, i) == StackedRow(S, N, lo, mid, i) + StackedRow(S, N, mid, hi, i)
    {
      StackedRowSplit(S, N, lo, mid, hi, i);
    }
  }

  /** `merge_logs` as a value: the merged curves and table, or the error it raises. */
  function Merge(dicts: seq<Dict<Curve>>, tables: seq<Table>, key: string): Result<(Dict<Curve>, Table), MergeError>
    requires Shaped(dicts, tables)
  {
    if !KeyPresent(dicts, key) then Err(MissingPrimaryKey(key, FirstMissing(dicts, key) + 1))
    else if |dicts| == 0 then Err(NoSources)
    else
      var common := CommonRows(KeyCurves(dicts, key));
      var F := Filtered(dicts, tables, key, common);
      var N := NonKeyLists(dicts, key);
      FilteredColumnsExist(dicts, tables, key, common);
      if !StackOk(F, N, 0, |F|) then Err(StackFailure)
      else if |F[0]| != |common| then Err(KeyRowMismatch)
      else Ok((Put(PutRange([], F, N, 0, |F|), key, common),
               Hstack(StackedTable(F, N, 0, |F|), AsColumn(common))))
  }

  lemma FilteredColumnsExist(dicts: seq<Dict<Curve>>, tables: seq<Table>, key: string, common: Curve)
    requires Shaped(dicts, tables) && KeyPresent(dicts, key)
    ensures ColumnsExist(Filtered(dicts, tables, key, common), NonKeyLists(dicts, key))
  {
  }

  /** The error names the first source, counting from 1, that lacks the key. */
  lemma MergeFirstMissing(dicts: seq<Dict<Curve>>, tables: seq<Table>, key: string, i: nat)
    requires Shaped(dicts, tables)
    requires i < |dicts| && key !in Keys(dicts[i])
    requires forall s | 0 <= s < i :: key in Keys(dicts[s])
    ensures Merge(dicts, tables, key) == Err(MissingPrimaryKey(key, i + 1))
  {
    var j := FirstMissing(dicts, key);
    assert key !in Keys(dicts[j]);
    assert !(j < i) && !(i < j);
  }

  /** The inner loop of `merge_logs` over one source's curve names: the (name, position) of
      the key, and of every other curve. */
  method SplitKeyColumns(ks: seq<string>, key: string)
    returns (primary: seq<(string, nat)>, nonKey: seq<(string, nat)>)
    requires key in ks
    requires forall i, j | 0 <= i < j < |ks| :: ks[i] != ks[j]
    ensures primary == [(key, IndexOf(ks, key))]
    ensures nonKey == NonKeyColumns(ks, key)
  {
    primary, nonKey := [], [];
    var c := 0;
    while c < |ks|
      invariant 0 <= c <= |ks|
      invariant nonKey == NonKeyColumns(ks[..c], key)
      invariant primary == if key in ks[..c] then [(key, IndexOf(ks, key))] else []
    {
      assert ks[..c + 1][..c] == ks[..c];
      if ks[c] == key {
        assert forall p | 0 <= p < c :: ks[p] != ks[c];
        assert key !in ks[..c];
        primary := primary + [(ks[c], c)];
      } else {
        assert key in ks[..c + 1] <==> key in ks[..c];
        nonKey := nonKey + [(ks[c], c)];
      }
      c := c + 1;
    }
    assert ks[..c] == ks;
  }

  /** The row-filter loop of `merge_logs`: each source's table entry is rebound to the rows
      whose key reading is common. */
  method KeepCommonRows(dicts: seq<Dict<Curve>>, values: array<Table>, key: string,
                        primaryKeyList: seq<(string, nat)>, common: Curve)
    requires Shaped(dicts, values[..]) && KeyPresent(dicts, key)
    requires |primaryKeyList| == |dicts|
    requires forall t | 0 <= t < |dicts| :: primaryKeyList[t] == (key, KeyIndex(dicts[t], key))
    modifies values
    ensures values[..] == Filtered(dicts, old(values[..]), key, common)
  {
    ghost var F := Filtered(dicts, values[..], key, common);
    var j := 0;
    while j < |primaryKeyList|
      invariant 0 <= j <= |dicts|
      invariant forall t | 0 <= t < j :: values[t] == F[t]
      invariant forall t | j <= t < values.Length :: values[t] == old(values[t])
    {
      values[j] := KeepRows(values[j], primaryKeyList[j].1, common);
      j := j + 1;
    }
    assert values[..] == F;
  }

  /** The loop of `merge_logs` over the sources: each source's key column and non-key columns,
      or the first source, counting from 0, that lacks the key. */
  method KeyColumnLists(dicts: seq<Dict<Curve>>, key: string)
    returns (primaryKeyList: seq<(string, nat)>, nonPrimaryKeyList: seq<seq<(string, nat)>>, missing: Option<nat>)
    requires forall s | 0 <= s < |dicts| :: DistinctKeys(dicts[s])
    ensures missing.Some? ==> && missing.value < |dicts| && key !in Keys(dicts[missing.value])
                              && forall t | 0 <= t < missing.value :: key in Keys(dicts[t])
    ensures missing.None? ==> && KeyPresent(dicts, key) && |primaryKeyList| == |dicts|
                              && (forall t | 0 <= t < |dicts| :: primaryKeyList[t] == (key, KeyIndex(dicts[t], key)))
                              && nonPrimaryKeyList == NonKeyLists(dicts, key)
  {
    primaryKeyList, nonPrimaryKeyList := [], [];
    ghost var N := NonKeyLists(dicts, key);
    var s := 0;
    while s < |dicts|
      invariant 0 <= s <= |dicts|
      invariant |primaryKeyList| == s
      invariant forall t | 0 <= t < s :: key in Keys(dicts[t]) && primaryKeyList[t] == (key, KeyIndex(dicts[t], key))
      invariant nonPrimaryKeyList == N[..s]
    {
      var ks := Keys(dicts[s]);
      if key !in ks {
        return primaryKeyList, nonPrimaryKeyList, Some(s);
      }
      var primary, nonKey := SplitKeyColumns(ks, key);
      assert primary == [(key, KeyIndex(dicts[s], key))];
      primaryKeyList := primaryKeyList + primary;
      assert nonKey == N[s];
      assert N[..s + 1] == N[..s] + [N[s]];
      nonPrimaryKeyList := nonPrimaryKeyList + [nonKey];
      s := s + 1;
    }
    assert N[..s] == N;
    missing := None;
  }

  /** `merge_logs(all_logs_reading_dicts, all_logs_values, primary_key)`. The caller's list of
      tables is rebound entry by entry to the kept rows, as the Python list is. */
  method MergeLogs(dicts: seq<Dict<Curve>>, values: array<Table>, key: string)
    returns (r: Result<(Dict<Curve>, Table), MergeError>)
    requires Shaped(dicts, values[..])
    modifies values
    ensures r == Merge(dicts, old(values[..]), key)
    ensures values[..] == if KeyPresent(dicts, key) && |dicts| > 0
                          then Filtered(dicts, old(values[..]), key, CommonRows(KeyCurves(dicts, key)))
                          else old(values[..])
  {
    var primaryKeyList, nonPrimaryKeyList, missing := KeyColumnLists(dicts, key);
    if missing.Some? {
      MergeFirstMissing(dicts, values[..], key, missing.value);
      return Err(MissingPrimaryKey(key, missing.value + 1));
    }
    var keyCurves := KeyCurves(dicts, key);
    if |keyCurves| == 0 {
      return Err(NoSources);
    }
    var common := CommonRows(keyCurves);
    KeepCommonRows(dicts, values, key, primaryKeyList, common);
    r := StackAndJoin(dicts, old(values[..]), key, common, values[..], nonPrimaryKeyList);
  }

  /** The end of `merge_logs`, once the rows are filtered: stack the non-key columns, then add
      the common key readings as the last curve and the last column. */
  method StackAndJoin(dicts: seq<Dict<Curve>>, ghost tables: seq<Table>, key: string,
                      common: Curve, F: seq<Table>, N: seq<seq<(string, nat)>>)
    returns (r: Result<(Dict<Curve>, Table), MergeError>)
    requires Shaped(dicts, tables) && KeyPresent(dicts, key) && |dicts| > 0
    requires common == CommonRows(KeyCurves(dicts, key))
    requires F == Filtered(dicts, tables, key, common) && N == NonKeyLists(dicts, key)
    ensures r == Merge(dicts, tables, key)
  {
    FilteredColumnsExist(dicts, tables, key, common);
    var merged, stacked := Stack(F, N, 0, |dicts| - 1, []);
    if stacked.Err? {
      return Err(stacked.error);
    }
    if |stacked.value| != |common| {
      return Err(KeyRowMismatch);
    }
    r := Ok((Put(merged, key, common), Hstack(stacked.value, AsColumn(common))));
  }

  /** The curve names a list of (name, position) pairs writes. */
  function Names(cols: seq<(string, nat)>): (ns: set<string>)
    ensures forall k :: k in ns <==> exists j | 0 <= j < |cols| :: cols[j].0 == k
  {
    set j | 0 <= j < |cols| :: cols[j].0
  }

  lemma {:induction false} PutColumnsKeys(d: Dict<Curve>, t: Table, cols: seq<(string, nat)>)
    requires forall k, i | 0 <= k < |cols| && 0 <= i < |t| :: cols[k].1 < |t[i]|
    ensures forall k :: k in Keys(PutColumns(d, t, cols)) <==> k in Keys(d) || k in Names(cols)
  {
    if cols != [] {
      var n := |cols| - 1;
      var prev := PutColumns(d, t, cols[..n]);
      PutColumnsKeys(d, t, cols[..n]);
      PutKeys(prev, cols[n].0, Column(t, cols[n].1));
      NamesSnoc(cols);
      forall k ensures k in Keys(PutColumns(d, t, cols)) <==> k in Keys(d) || k in Names(cols) {
        assert k in Keys(PutColumns(d, t, cols)) <==> k in Keys(prev) || k == cols[n].0;
      }
    }
  }

  lemma NamesSnoc(cols: seq<(string, nat)>)
    requires cols != []
    ensures Names(cols) == Names(cols[..|cols| - 1]) + {cols[|cols| - 1].0}
  {
    assert forall j | 0 <= j < |cols| - 1 :: cols[..|cols| - 1][j] == cols[j];
  }

  lemma {:induction false} PutRangeKeys(d: Dict<Curve>, S: seq<Table>, N: seq<seq<(string, nat)>>, lo: nat, hi: nat)
    requires ColumnsExist(S, N) && lo <= hi <= |S|
    ensures forall k :: k in Keys(PutRange(d, S, N, lo, hi)) <==> k in Keys(d) || exists s | lo <= s < hi :: k in Names(N[s])
    decreases hi
  {
    if hi > lo {
      PutRangeKeys(d, S, N, lo, hi - 1);
      PutColumnsKeys(PutRange(d, S, N, lo, hi - 1), S[hi - 1], N[hi - 1]);
    }
  }

  lemma NonKeyNames(ks: seq<string>, key: string)
    ensures forall k :: k in Names(NonKeyColumns(ks, key)) <==> k in ks && k != key
  {
    var r := NonKeyColumns(ks, key);
    NonKeyListed(ks, key);
    forall k | k in ks && k != key ensures k in Names(r) {
      var p :| 0 <= p < |ks| && ks[p] == k;
      assert (k, p) in r;
    }
  }

  /** The dict writes of all sources name every non-key curve of every source, and nothing else. */
  lemma StackedNames(dicts: seq<Dict<Curve>>, key: string, S: seq<Table>)
    requires ColumnsExist(S, NonKeyLists(dicts, key))
    ensures var N := NonKeyLists(dicts, key);
      forall k :: k in Keys(PutRange([], S, N, 0, |S|)) <==> k != key && exists s | 0 <= s < |dicts| :: k in Keys(dicts[s])
  {
    var N := NonKeyLists(dicts, key);
    PutRangeKeys([], S, N, 0, |S|);
    forall s | 0 <= s < |dicts| {
      NonKeyNames(Keys(dicts[s]), key);
    }
  }

  /** What a successful merge returns, spelled out. */
  lemma MergeValue(dicts: seq<Dict<Curve>>, tables: seq<Table>, key: string)
    requires Shaped(dicts, tables) && Merge(dicts, tables, key).Ok?
    ensures KeyPresent(dicts, key) && |dicts| > 0
    ensures var common := CommonRows(KeyCurves(dicts, key));
      var F, N := Filtered(dicts, tables, key, common), NonKeyLists(dicts, key);
      && ColumnsExist(F, N) && StackOk(F, N, 0, |F|) && |F[0]| == |common|
      && Merge(dicts, tables, key).value
         == (Put(PutRange([], F, N, 0, |F|), key, common), Hstack(StackedTable(F, N, 0, |F|), AsColumn(common)))
  {
  }

  /** The merge result, given its parts. */
  lemma MergeIs(dicts: seq<Dict<Curve>>, tables: seq<Table>, key: string,
                common: Curve, F: seq<Table>, N: seq<seq<(string, nat)>>, d0: Dict<Curve>, st: Table)
    requires Shaped(dicts, tables) && KeyPresent(dicts, key) && |dicts| > 0
    requires common == CommonRows(KeyCurves(dicts, key))
    requires F == Filtered(dicts, tables, key, common) && N == NonKeyLists(dicts, key)
    requires ColumnsExist(F, N) && StackOk(F, N, 0, |F|) && |F[0]| == |common|
    requires d0 == PutRange([], F, N, 0, |F|) && st == StackedTable(F, N, 0, |F|)
    ensures Merge(dicts, tables, key) == Ok((Put(d0, key, common), Hstack(st, AsColumn(common))))
  {
  }

  /** A successful merge needs every source to carry a curve besides the key. */
  lemma MergeOkSourcesHaveCurves(dicts: seq<Dict<Curve>>, tables: seq<Table>, key: string)
    requires Shaped(dicts, tables) && Merge(dicts, tables, key).Ok?
    ensures KeyPresent(dicts, key) && |dicts| > 0
    ensures forall s | 0 <= s < |dicts| :: |dicts[s]| >= 2
  {
    MergeValue(dicts, tables, key);
    forall s | 0 <= s < |dicts| ensures |dicts[s]| >= 2 {
      NonKeyCount(Keys(dicts[s]), key);
      assert |NonKeyLists(dicts, key)[s]| > 0;
    }
  }

  /** The key curve of a successful merge is the sorted, duplicate-free set of key readings
      common to all sources; it is the last column of the table, one row per common key. */
  lemma MergeOkKeyCurve(dicts: seq<Dict<Curve>>, tables: seq<Table>, key: string)
    requires Shaped(dicts, tables) && Merge(dicts, tables, key).Ok?
    ensures var (d, t) := Merge(dicts, tables, key).value;
      && Get(d, key).Some?
      && StrictlyIncreasing(Get(d, key).value)
      && (forall x :: x in Get(d, key).value <==> forall s | 0 <= s < |dicts| :: x in Get(dicts[s], key).value)
      && |t| == |Get(d, key).value|
      && (forall i | 0 <= i < |t| :: |t[i]| > 0 && t[i][|t[i]| - 1] == Get(d, key).value[i])
  {
    var common := MergeKeyCurve(dicts, tables, key);
    MergeKeyColumn(dicts, tables, key);
  }

  /** The key curve of a successful merge is the common rows. */
  lemma MergeKeyCurve(dicts: seq<Dict<Curve>>, tables: seq<Table>, key: string) returns (common: Curve)
    requires Shaped(dicts, tables) && Merge(dicts, tables, key).Ok?
    ensures KeyPresent(dicts, key) && |dicts| > 0 && common == CommonRows(KeyCurves(dicts, key))
    ensures Get(Merge(dicts, tables, key).value.0, key) == Some(common)
  {
    var F, N, d0;
    common, F, N, d0 := MergeDict(dicts, tables, key);
    PutSpec(d0, key, common);
  }

  /** The last column of a successful merge's table is the common rows. */
  lemma MergeKeyColumn(dicts: seq<Dict<Curve>>, tables: seq<Table>, key: string)
    requires Shaped(dicts, tables) && Merge(dicts, tables, key).Ok?
    ensures KeyPresent(dicts, key) && |dicts| > 0
    ensures var common, t := CommonRows(KeyCurves(dicts, key)), Merge(dicts, tables, key).value.1;
      |t| == |common| && forall i | 0 <= i < |t| :: |t[i]| > 0 && t[i][|t[i]| - 1] == common[i]
  {
    var common, st := MergeTable(dicts, tables, key);
    forall i | 0 <= i < |st| ensures Hstack(st, AsColumn(common))[i] == st[i] + [common[i]] {
    }
  }

  /** The table of a successful merge, spelled out. */
  lemma MergeTable(dicts: seq<Dict<Curve>>, tables: seq<Table>, key: string)
    returns (common: Curve, st: Table)
    requires Shaped(dicts, tables) && Merge(dicts, tables, key).Ok?
    ensures KeyPresent(dicts, key) && |dicts| > 0
    ensures common == CommonRows(KeyCurves(dicts, key))
    ensures |st| == |common| && Merge(dicts, tables, key).value.1 == Hstack(st, AsColumn(common))
  {
    MergeValue(dicts, tables, key);
    common := CommonRows(KeyCurves(dicts, key));
    var F, N := Filtered(dicts, tables, key, common), NonKeyLists(dicts, key);
    st := StackedTable(F, N, 0, |F|);
  }

  /** The dict of a successful merge, spelled out: the dict writes of the filtered sources,
      then the key curve. */
  lemma MergeDict(dicts: seq<Dict<Curve>>, tables: seq<Table>, key: string)
    returns (common: Curve, F: seq<Table>, N: seq<seq<(string, nat)>>, d0: Dict<Curve>)
    requires Shaped(dicts, tables) && Merge(dicts, tables, key).Ok?
    ensures KeyPresent(dicts, key) && |dicts| > 0
    ensures common == CommonRows(KeyCurves(dicts, key))
    ensures F == Filtered(dicts, tables, key, common) && N == NonKeyLists(dicts, key)
    ensures ColumnsExist(F, N) && d0 == PutRange([], F, N, 0, |F|)
    ensures Merge(dicts, tables, key).value.0 == Put(d0, key, common)
  {
    MergeValue(dicts, tables, key);
    common := CommonRows(KeyCurves(dicts, key));
    F, N := Filtered(dicts, tables, key, common), NonKeyLists(dicts, key);
    d0 := PutRange([], F, N, 0, |F|);
  }

  /** A successful merge holds exactly the curve names of the sources, the key last. */
  lemma MergeOkNames(dicts: seq<Dict<Curve>>, tables: seq<Table>, key: string)
    requires Shaped(dicts, tables) && Merge(dicts, tables, key).Ok?
    ensures var d := Merge(dicts, tables, key).value.0;
      && d != [] && d[|d| - 1].0 == key
      && forall k :: k in Keys(d) <==> exists s | 0 <= s < |dicts| :: k in Keys(dicts[s])
  {
    var common, F, N, d0 := MergeDict(dicts, tables, key);
    KeyWrittenLast(dicts, key, F, common);
  }

  /** Writing the key curve after the dict writes of all sources puts it last, after every
      other curve name of the sources. */
  lemma KeyWrittenLast(dicts: seq<Dict<Curve>>, key: string, F: seq<Table>, common: Curve)
    requires KeyPresent(dicts, key) && |dicts| > 0 && ColumnsExist(F, NonKeyLists(dicts, key))
    ensures var d := Put(PutRange([], F, NonKeyLists(dicts, key), 0, |F|), key, common);
      && d != [] && d[|d| - 1].0 == key
      && forall k :: k in Keys(d) <==> exists s | 0 <= s < |dicts| :: k in Keys(dicts[s])
  {
    var d0 := PutRange([], F, NonKeyLists(dicts, key), 0, |F|);
    StackedNames(dicts, key, F);
    assert key !in Keys(d0);
    PutKeys(d0, key, common);
    var d := Put(d0, key, common);
    assert Keys(d) == Keys(d0) + [key];
    forall k ensures k in Keys(d) <==> exists s | 0 <= s < |dicts| :: k in Keys(dicts[s]) {
      if k == key {
        assert key in Keys(dicts[0]);
      }
    }
  }

  /** The key column of the kept rows is the key column filtered by the same mask. */
  lemma {:induction false} KeepRowsColumn(t: Table, j: nat, common: Curve)
    requires HasColumn(t, j)
    ensures HasColumn(KeepRows(t, j, common), j)
    ensures Column(KeepRows(t, j, common), j) == Among(Column(t, j), common)
  {
    if t != [] {
      KeepRowsColumn(t[1..], j, common);
      var head: Table := if t[0][j] in common then [t[0]] else [];
      var rest := KeepRows(t[1..], j, common);
      KeepRowsCons(t, j, common);
      var c := Column(t, j);
      assert c[1..] == Column(t[1..], j);
      AmongCons(c, common);
      ColumnConcat(head, rest, j);
      assert Column(head, j) == if c[0] in common then [c[0]] else [];
    }
  }

  lemma KeepRowsCons(t: Table, j: nat, common: Curve)
    requires t != [] && j < |t[0]|
    ensures KeepRows(t, j, common) == (if t[0][j] in common then [t[0]] else []) + KeepRows(t[1..], j, common)
  {
  }

  lemma AmongCons(c: Curve, common: Curve)
    requires c != []
    ensures Among(c, common) == (if c[0] in common then [c[0]] else []) + Among(c[1..], common)
  {
  }

  /** The column of two stacked tables is the two columns one after the other. */
  lemma ColumnConcat(a: Table, b: Table, j: nat)
    requires HasColumn(a, j) && HasColumn(b, j)
    ensures HasColumn(a + b, j) && Column(a + b, j) == Column(a, j) + Column(b, j)
  {
  }

  /** A source whose key column is strictly increasing keeps exactly one row per common key, in
      increasing key order. */
  lemma KeptKeysAreCommon(t: Table, j: nat, common: Curve)
    requires HasColumn(t, j) && StrictlyIncreasing(Column(t, j)) && StrictlyIncreasing(common)
    requires forall x | x in common :: x in Column(t, j)
    ensures HasColumn(KeepRows(t, j, common), j)
    ensures Column(KeepRows(t, j, common), j) == common
  {
    KeepRowsColumn(t, j, common);
    FilterIncreasing(Column(t, j), x => x in common);
    StrictlyIncreasingUnique(Column(KeepRows(t, j, common), j), common);
  }

  /** The merge succeeds when every source has the key and another curve, the stacked rows
      agree in number, and that number is the number of common keys. */
  lemma MergeOkWhen(dicts: seq<Dict<Curve>>, tables: seq<Table>, key: string)
    requires Shaped(dicts, tables) && KeyPresent(dicts, key) && |dicts| > 0
    requires forall s | 0 <= s < |dicts| :: |dicts[s]| >= 2
    requires var common := CommonRows(KeyCurves(dicts, key));
      forall s | 0 <= s < |dicts| :: |Filtered(dicts, tables, key, common)[s]| == |common|
    ensures Merge(dicts, tables, key).Ok?
  {
    var common := CommonRows(KeyCurves(dicts, key));
    var F, N := Filtered(dicts, tables, key, common), NonKeyLists(dicts, key);
    FilteredColumnsExist(dicts, tables, key, common);
    forall s | 0 <= s < |dicts| ensures |N[s]| > 0 {
      NonKeyCount(Keys(dicts[s]), key);
    }
    assert StackOk(F, N, 0, |F|);
  }

  /** Sorted sources make the positional join a true join. When each source's key readings are
      strictly increasing (as a depth index is) and are its table's key column, every source keeps
      one row per common key in increasing key order, so row k of every kept table carries the
      k-th common key, and the merge succeeds once each source has a curve besides the key. */
  lemma AlignedWhenSorted(dicts: seq<Dict<Curve>>, tables: seq<Table>, key: string)
    requires Shaped(dicts, tables) && KeyPresent(dicts, key) && |dicts| > 0
    requires forall s | 0 <= s < |dicts| :: |dicts[s]| >= 2
    requires forall s | 0 <= s < |dicts| ::
      Column(tables[s], KeyIndex(dicts[s], key)) == Get(dicts[s], key).value
    requires forall s | 0 <= s < |dicts| :: StrictlyIncreasing(Get(dicts[s], key).value)
    ensures var common := CommonRows(KeyCurves(dicts, key));
      var F := Filtered(dicts, tables, key, common);
      forall s | 0 <= s < |F| ::
        && |F[s]| == |common|
        && forall k | 0 <= k < |common| :: F[s][k] in tables[s] && F[s][k][KeyIndex(dicts[s], key)] == common[k]
    ensures Merge(dicts, tables, key).Ok?
  {
    var S := KeyCurves(dicts, key);
    var common := CommonRows(S);
    var F := Filtered(dicts, tables, key, common);
    forall s | 0 <= s < |F|
      ensures |F[s]| == |common|
      ensures forall k | 0 <= k < |common| :: F[s][k] in tables[s] && F[s][k][KeyIndex(dicts[s], key)] == common[k]
    {
      var j := KeyIndex(dicts[s], key);
      assert S[s] == Column(tables[s], j);
      KeptKeysAreCommon(tables[s], j, common);
      assert F[s] == KeepRows(tables[s], j, common);
      forall k | 0 <= k < |common| ensures F[s][k][j] == common[k] {
        assert Column(F[s], j)[k] == F[s][k][j];
      }
    }
    MergeOkWhen(dicts, tables, key);
  }

  /** No common key: every source keeps no row, and the merge succeeds with an empty table and
      an empty key curve once each source has a curve besides the key. */
  lemma MergeNoCommonRows(dicts: seq<Dict<Curve>>, tables: seq<Table>, key: string)
    requires Shaped(dicts, tables) && KeyPresent(dicts, key) && |dicts| > 0
    requires forall s | 0 <= s < |dicts| :: |dicts[s]| >= 2
    requires CommonRows(KeyCurves(dicts, key)) == []
    ensures forall s | 0 <= s < |dicts| :: Filtered(dicts, tables, key, [])[s] == []
    ensures Merge(dicts, tables, key).Ok?
    ensures Merge(dicts, tables, key).value.1 == []
    ensures Get(Merge(dicts, tables, key).value.0, key) == Some([])
  {
    var F := Filtered(dicts, tables, key, []);
    forall s | 0 <= s < |dicts| ensures F[s] == [] {
      KeepNoRows(tables[s], KeyIndex(dicts[s], key));
    }
    MergeOkWhen(dicts, tables, key);
    MergeValue(dicts, tables, key);
    PutSpec(PutRange([], F, NonKeyLists(dicts, key), 0, |F|), key, []);
  }

  /** The merged key curve does not depend on the order in which the sources are given. */
  lemma MergeKeyCurveOrderFree(dicts: seq<Dict<Curve>>, dicts': seq<Dict<Curve>>, key: string)
    requires KeyPresent(dicts, key) && |dicts| > 0
    requires multiset(dicts) == multiset(dicts')
    ensures KeyPresent(dicts', key) && |dicts'| > 0
    ensures CommonRows(KeyCurves(dicts, key)) == CommonRows(KeyCurves(dicts', key))
  {
    assert |dicts'| == |multiset(dicts')| == |multiset(dicts)| == |dicts|;
    forall s | 0 <= s < |dicts'| ensures key in Keys(dicts'[s]) {
      assert dicts'[s] in multiset(dicts);
    }
    var S, T := KeyCurves(dicts, key), KeyCurves(dicts', key);
    forall c ensures c in S <==> c in T {
      if c in S {
        var s :| 0 <= s < |S| && S[s] == c;
        assert dicts[s] in multiset(dicts');
        var t :| 0 <= t < |dicts'| && dicts'[t] == dicts[s];
        assert T[t] == c;
      }
      if c in T {
        var t :| 0 <= t < |T| && T[t] == c;
        assert dicts'[t] in multiset(dicts);
        var s :| 0 <= s < |dicts| && dicts[s] == dicts'[t];
        assert S[s] == c;
      }
    }
    CommonRowsOrderFree(S, T);
  }

  /** Two sources over the same two depths: A lists depth 2 before depth 1, B lists them in
      increasing order. */
  const UnsortedA: Dict<Curve> := [("TVD", [2.0, 1.0]), ("X", [20.0, 10.0])]
  const SortedB: Dict<Curve> := [("TVD", [1.0, 2.0]), ("Y", [100.0, 200.0])]
  const UnsortedTables: seq<Table> := [[[2.0, 20.0], [1.0, 10.0]], [[1.0, 100.0], [2.0, 200.0]]]

  lemma UnsortedShaped()
    ensures Shaped([UnsortedA, SortedB], UnsortedTables) && KeyPresent([UnsortedA, SortedB], "TVD")
    ensures KeyCurves([UnsortedA, SortedB], "TVD") == [[2.0, 1.0], [1.0, 2.0]]
    ensures forall s | 0 <= s < 2 :: |[UnsortedA, SortedB][s]| >= 2
  {
    assert Keys(UnsortedA) == ["TVD", "X"] && Keys(SortedB) == ["TVD", "Y"];
    assert "TVD" != "X" && "TVD" != "Y";
  }

  lemma CommonOfTwoDepths()
    ensures CommonRows([[2.0, 1.0], [1.0, 2.0]]) == [1.0, 2.0]
  {
    var S: seq<Curve> := [[2.0, 1.0], [1.0, 2.0]];
    var c := CommonRows(S);
    forall x ensures x in c <==> x in [1.0, 2.0] {
      assert x in c <==> x in S[0] && x in S[1];
    }
    StrictlyIncreasingUnique(c, [1.0, 2.0]);
  }

  lemma UnsortedFiltered()
    requires Shaped([UnsortedA, SortedB], UnsortedTables) && KeyPresent([UnsortedA, SortedB], "TVD")
    ensures Filtered([UnsortedA, SortedB], UnsortedTables, "TVD", [1.0, 2.0]) == UnsortedTables
  {
    var t := UnsortedTables;
    assert Keys(UnsortedA) == ["TVD", "X"] && Keys(SortedB) == ["TVD", "Y"];
    assert KeyIndex(UnsortedA, "TVD") == 0 && KeyIndex(SortedB, "TVD") == 0;
    FilterKeepsAll(t[0], (row: Row) => 0 < |row| && row[0] in [1.0, 2.0]);
    FilterKeepsAll(t[1], (row: Row) => 0 < |row| && row[0] in [1.0, 2.0]);
  }

  lemma UnsortedNonKey()
    ensures NonKeyLists([UnsortedA, SortedB], "TVD") == [[("X", 1)], [("Y", 1)]]
  {
    assert Keys(UnsortedA) == ["TVD", "X"] && Keys(SortedB) == ["TVD", "Y"];
    NonKeyOfPair("TVD", "X");
    NonKeyOfPair("TVD", "Y");
  }

  /** With curves `[key, b]`, the only non-key column is `b`, at position 1. */
  lemma NonKeyOfPair(key: string, b: string)
    requires key != b
    ensures NonKeyColumns([key, b], key) == [(b, 1)]
  {
    assert [key, b][..1] == [key];
    assert [key][..0] == [];
  }

  lemma UnsortedPicked(N: seq<seq<(string, nat)>>)
    requires N == [[("X", 1)], [("Y", 1)]]
    ensures ColumnsExist(UnsortedTables, N)
    ensures Picked(UnsortedTables, N, 0) == [[20.0], [10.0]]
    ensures Picked(UnsortedTables, N, 1) == [[100.0], [200.0]]
  {
    var S := UnsortedTables;
    assert ColumnsExist(S, N);
    assert ColumnIdx(N[0]) == [1] && ColumnIdx(N[1]) == [1];
    assert S[0] == [[2.0, 20.0], [1.0, 10.0]] && S[1] == [[1.0, 100.0], [2.0, 200.0]];
    assert Picked(S, N, 0)[0] == [20.0] && Picked(S, N, 0)[1] == [10.0];
    assert Picked(S, N, 1)[0] == [100.0] && Picked(S, N, 1)[1] == [200.0];
  }

  lemma UnsortedStacked(N: seq<seq<(string, nat)>>)
    requires N == [[("X", 1)], [("Y", 1)]]
    ensures ColumnsExist(UnsortedTables, N)
    ensures StackOk(UnsortedTables, N, 0, 2)
    ensures StackedTable(UnsortedTables, N, 0, 2) == [[20.0, 100.0], [10.0, 200.0]]
  {
    UnsortedPicked(N);
    StackedPair(UnsortedTables, N, 0, []);
    var h := Hstack([[20.0], [10.0]], [[100.0], [200.0]]);
    assert h[0] == [20.0, 100.0] && h[1] == [10.0, 200.0];
  }

  lemma UnsortedPut(N: seq<seq<(string, nat)>>)
    requires N == [[("X", 1)], [("Y", 1)]]
    ensures ColumnsExist(UnsortedTables, N)
    ensures PutRange([], UnsortedTables, N, 0, 2) == [("X", [20.0, 10.0]), ("Y", [100.0, 200.0])]
  {
    var S := UnsortedTables;
    UnsortedPicked(N);
    StackedPair(S, N, 0, []);
    assert Column(S[0], 1) == [20.0, 10.0] && Column(S[1], 1) == [100.0, 200.0];
    assert PutColumns([], S[0], N[0]) == [("X", [20.0, 10.0])] by {
      assert N[0][..0] == [];
    }
    assert "X" != "Y";
    assert PutColumns([("X", [20.0, 10.0])], S[1], N[1]) == [("X", [20.0, 10.0]), ("Y", [100.0, 200.0])] by {
      assert N[1][..0] == [];
    }
  }

  lemma UnsortedAssembled()
    ensures Put([("X", [20.0, 10.0]), ("Y", [100.0, 200.0])], "TVD", [1.0, 2.0])
      == [("X", [20.0, 10.0]), ("Y", [100.0, 200.0]), ("TVD", [1.0, 2.0])]
    ensures Hstack([[20.0, 100.0], [10.0, 200.0]], AsColumn([1.0, 2.0])) == [[20.0, 100.0, 1.0], [10.0, 200.0, 2.0]]
  {
    var d0: Dict<Curve> := [("X", [20.0, 10.0]), ("Y", [100.0, 200.0])];
    assert Keys(d0) == ["X", "Y"];
    assert "TVD" != "X" && "TVD" != "Y";
    var h := Hstack([[20.0, 100.0], [10.0, 200.0]], AsColumn([1.0, 2.0]));
    assert h[0] == [20.0, 100.0, 1.0] && h[1] == [10.0, 200.0, 2.0];
  }

  /** Unsorted keys: the join stays positional. The merged row for depth 1 pairs A's reading
      taken at depth 2 (20) with B's reading taken at depth 1 (100). */
  lemma PositionalJoinUnsorted()
    ensures Merge([UnsortedA, SortedB], UnsortedTables, "TVD")
      == Ok(([("X", [20.0, 10.0]), ("Y", [100.0, 200.0]), ("TVD", [1.0, 2.0])],
             [[20.0, 100.0, 1.0], [10.0, 200.0, 2.0]]))
  {
    var dicts := [UnsortedA, SortedB];
    UnsortedShaped();
    CommonOfTwoDepths();
    UnsortedFiltered();
    UnsortedNonKey();
    var N := NonKeyLists(dicts, "TVD");
    UnsortedStacked(N);
    UnsortedPut(N);
    UnsortedAssembled();
    assert Filtered(dicts, UnsortedTables, "TVD", CommonRows(KeyCurves(dicts, "TVD"))) == UnsortedTables;
    MergeIs(dicts, UnsortedTables, "TVD", [1.0, 2.0], UnsortedTables, N,
            [("X", [20.0, 10.0]), ("Y", [100.0, 200.0])], [[20.0, 100.0], [10.0, 200.0]]);
  }

  /** Position of the last entry named `n`. */
  function LastNamed(cols: seq<(string, nat)>, n: string): (j: nat)
    requires n in Names(cols)
    ensures j < |cols| && cols[j].0 == n
    ensures forall j' | j < j' < |cols| :: cols[j'].0 != n
  {
    var last := |cols| - 1;
    if cols[last].0 == n then last
    else
      assert n in Names(cols[..last]) by {
        var j :| 0 <= j < |cols| && cols[j].0 == n;
        assert cols[..last][j] == cols[j];
      }
      LastNamed(cols[..last], n)
  }

  /** A write of a name the columns do not list leaves that name's entry alone. */
  lemma {:induction false} PutColumnsOther(d: Dict<Curve>, t: Table, cols: seq<(string, nat)>, n: string)
    requires forall k, i | 0 <= k < |cols| && 0 <= i < |t| :: cols[k].1 < |t[i]|
    requires n !in Names(cols)
    ensures Get(PutColumns(d, t, cols), n) == Get(d, n)
  {
    if cols != [] {
      var last := |cols| - 1;
      assert n != cols[last].0;
      assert n !in Names(cols[..last]) by {
        forall j | 0 <= j < last ensures cols[..last][j].0 != n {
          assert cols[..last][j] == cols[j];
        }
      }
      PutColumnsOther(d, t, cols[..last], n);
      PutSpec(PutColumns(d, t, cols[..last]), cols[last].0, Column(t, cols[last].1));
    }
  }

  /** Among one source's writes, the last write of a name is the one that stays. */
  lemma {:induction false} PutColumnsLastWins(d: Dict<Curve>, t: Table, cols: seq<(string, nat)>, j: nat)
    requires forall k, i | 0 <= k < |cols| && 0 <= i < |t| :: cols[k].1 < |t[i]|
    requires j < |cols| && forall j' | j < j' < |cols| :: cols[j'].0 != cols[j].0
    ensures Get(PutColumns(d, t, cols), cols[j].0) == Some(Column(t, cols[j].1))
  {
    var last := |cols| - 1;
    PutSpec(PutColumns(d, t, cols[..last]), cols[last].0, Column(t, cols[last].1));
    if j < last {
      assert cols[..last][j] == cols[j];
      PutColumnsLastWins(d, t, cols[..last], j);
    }
  }

  /** Across sources, the write by the last source that lists a name is the one that stays. */
  lemma {:induction false} PutRangeLastWins(d: Dict<Curve>, S: seq<Table>, N: seq<seq<(string, nat)>>,
                                           lo: nat, hi: nat, s: nat, j: nat)
    requires ColumnsExist(S, N) && lo <= s < hi <= |S| && j < |N[s]|
    requires forall j' | j < j' < |N[s]| :: N[s][j'].0 != N[s][j].0
    requires forall s' | s < s' < hi :: N[s][j].0 !in Names(N[s'])
    ensures Get(PutRange(d, S, N, lo, hi), N[s][j].0) == Some(Column(S[s], N[s][j].1))
    decreases hi
  {
    if hi - 1 == s {
      PutColumnsLastWins(PutRange(d, S, N, lo, s), S[s], N[s], j);
    } else {
      PutRangeLastWins(d, S, N, lo, hi - 1, s, j);
      PutColumnsOther(PutRange(d, S, N, lo, hi - 1), S[hi - 1], N[hi - 1], N[s][j].0);
    }
  }

  /** In the merged dict a curve name shared by several sources holds the filtered column of the
      last source that has it: later sources overwrite earlier ones. */
  lemma MergeLaterWins(dicts: seq<Dict<Curve>>, tables: seq<Table>, key: string, s: nat, c: nat)
    requires Shaped(dicts, tables) && Merge(dicts, tables, key).Ok?
    requires s < |dicts| && c < |dicts[s]| && DistinctKeys(dicts[s])
    requires dicts[s][c].0 != key
    requires forall s' | s < s' < |dicts| :: dicts[s][c].0 !in Keys(dicts[s'])
    ensures KeyPresent(dicts, key)
    ensures Get(Merge(dicts, tables, key).value.0, dicts[s][c].0)
      == Some(Column(Filtered(dicts, tables, key, CommonRows(KeyCurves(dicts, key)))[s], c))
  {
    var common, F, N, d0 := MergeDict(dicts, tables, key);
    var n := dicts[s][c].0;
    var j := NonKeyLast(Keys(dicts[s]), key, c);
    forall s' | s < s' < |dicts| ensures n !in Names(N[s']) {
      NonKeyNames(Keys(dicts[s']), key);
    }
    PutRangeLastWins([], F, N, 0, |F|, s, j);
    PutSpec(d0, key, common);
  }

  /** With distinct curve names, the last (and only) non-key entry named like curve `c` points
      at `c`. */
  lemma NonKeyLast(ks: seq<string>, key: string, c: nat) returns (j: nat)
    requires c < |ks| && ks[c] != key
    requires forall i, i' | 0 <= i < i' < |ks| :: ks[i] != ks[i']
    ensures var N := NonKeyColumns(ks, key);
      && j < |N| && N[j] == (ks[c], c)
      && forall j' | j < j' < |N| :: N[j'].0 != ks[c]
  {
    var N := NonKeyColumns(ks, key);
    NonKeyNames(ks, key);
    j := LastNamed(N, ks[c]);
  }
}
