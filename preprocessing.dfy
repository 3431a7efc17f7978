/** Input/output concatenation and the deterministic batch generator for time-series training
    (machine_learning/data_wrangling/preprocessing.py). */
module Preprocessing {
  import opened Wrappers
  import opened Tables

  datatype ShapeError =
    | RowCountMismatch  // ValueError from `np.concatenate` along axis 1

  datatype BatchError =
    | ZeroStep           // ZeroDivisionError: `lookback // step` with `step == 0`
    | IndexOutOfRange    // IndexError: a window or target row past the end of the data
    | BroadcastMismatch  // ValueError: a window of `ceil(lookback / step)` rows, more than one, into `lookback // step` slots
    | Exhausted          // StopIteration: the generator raised before and is finished

  /** `input_output_concatenate`: every row of `dataIn` followed by the same row of `dataOut`. */
  function Concatenate(dataIn: Table, dataOut: Table): (r: Result<Table, ShapeError>)
    ensures r.Ok? <==> |dataIn| == |dataOut|
    ensures r.Err? ==> r.error == RowCountMismatch
    ensures r.Ok? ==> |r.value| == |dataIn|
    ensures r.Ok? ==> forall i | 0 <= i < |dataIn| :: |r.value[i]| == |dataIn[i]| + |dataOut[i]|
    ensures r.Ok? ==> forall i | 0 <= i < |dataIn| ::
      r.value[i][..|dataIn[i]|] == dataIn[i] && r.value[i][|dataIn[i]|..] == dataOut[i]
  {
    if |dataIn| != |dataOut| then Err(RowCountMismatch)
    else
      var t := Hstack(dataIn, dataOut);
      assert forall i | 0 <= i < |dataIn| :: t[i][..|dataIn[i]|] == dataIn[i] && t[i][|dataIn[i]|..] == dataOut[i] by {
        forall i | 0 <= i < |dataIn| ensures t[i][..|dataIn[i]|] == dataIn[i] && t[i][|dataIn[i]|..] == dataOut[i] {
          assert t[i] == dataIn[i] + dataOut[i];
        }
      }
      Ok(t)
  }

  /** Concatenating an `a`-wide and a `b`-wide array gives an `a + b`-wide one. */
  lemma ConcatenateWidth(dataIn: Table, dataOut: Table, a: nat, b: nat)
    requires |dataIn| == |dataOut| && Rectangular(dataIn, a) && Rectangular(dataOut, b)
    ensures Rectangular(Concatenate(dataIn, dataOut).value, a + b)
  {
    var t := Concatenate(dataIn, dataOut).value;
    forall i | 0 <= i < |t| ensures |t[i]| == a + b {
      assert t[i] == Hstack(dataIn, dataOut)[i];
    }
  }

  /** The generator's arguments once `max_index` is resolved. */
  datatype Settings = Settings(minIndex: nat, maxIndex: int, lookback: nat, delay: nat, batchSize: nat, step: nat)

  /** `max_index` when the caller gives none: `len(data_in) - delay - 1`. */
  function DefaultMaxIndex(rowCount: nat, delay: nat): (m: int)
    ensures m + delay + 1 == rowCount
  {
    rowCount - delay - 1
  }

  /** The first row a batch can hold, where the pointer starts and is reset to. */
  function FirstRow(s: Settings): nat {
    s.minIndex + s.lookback
  }

  /** The pointer a batch starts from: reset to the first row when the batch would reach
      `max_index`. */
  function BatchStart(s: Settings, i: int): int {
    if i + s.batchSize >= s.maxIndex then FirstRow(s) else i
  }

  function Min(a: int, b: int): int {
    if a <= b then a else b
  }

  /** `np.arange(lo, hi)`. */
  function Arange(lo: int, hi: int): (r: seq<int>)
    ensures |r| == if hi <= lo then 0 else hi - lo
    ensures forall j | 0 <= j < |r| :: r[j] == lo + j
  {
    if hi <= lo then [] else seq(hi - lo, j requires 0 <= j < hi - lo => lo + j)
  }

  /** The rows of the batch drawn with the pointer at `i`. */
  function BatchRows(s: Settings, i: int): seq<int> {
    var start := BatchStart(s, i);
    Arange(start, Min(start + s.batchSize, s.maxIndex))
  }

  /** The pointer after the batch drawn with the pointer at `i`. */
  function NextPointer(s: Settings, i: int): int {
    BatchStart(s, i) + |BatchRows(s, i)|
  }

  /** The pointer is never below the first row, and is past `max_index` only where it starts. */
  predicate PointerOk(s: Settings, i: int) {
    FirstRow(s) <= i && (i <= s.maxIndex || i == FirstRow(s))
  }

  /** A batch's rows are consecutive, lie in `[min_index + lookback, max_index)`, and number at
      most `batch_size`. */
  lemma BatchRowsInRange(s: Settings, i: int)
    requires PointerOk(s, i)
    ensures var rows := BatchRows(s, i);
      && |rows| <= s.batchSize
      && (forall j | 0 <= j < |rows| :: FirstRow(s) <= rows[j] < s.maxIndex)
      && (forall j | 0 <= j < |rows| :: rows[j] == BatchStart(s, i) + j)
  {
  }

  /** Drawing a batch keeps the pointer invariant. */
  lemma NextPointerOk(s: Settings, i: int)
    requires PointerOk(s, i)
    ensures PointerOk(s, NextPointer(s, i))
  {
  }

  /** When one batch fits between the first row and `max_index`, every batch is full. */
  lemma FullBatches(s: Settings, i: int)
    requires PointerOk(s, i) && FirstRow(s) + s.batchSize < s.maxIndex
    ensures |BatchRows(s, i)| == s.batchSize
  {
  }

  /** The pointer after `k` batches drawn from the start. */
  function PointerAfter(s: Settings, k: nat): int {
    if k == 0 then FirstRow(s) else NextPointer(s, PointerAfter(s, k - 1))
  }

  /** The rows of the first `k` batches, one after the other. */
  function RowsDrawn(s: Settings, k: nat): seq<int> {
    if k == 0 then [] else RowsDrawn(s, k - 1) + BatchRows(s, PointerAfter(s, k - 1))
  }

  /** While no reset happens, the first `k` batches tile the rows from the first row on, in
      order, with no gap and no repeat. */
  lemma {:induction false} BatchesTile(s: Settings, k: nat)
    requires FirstRow(s) + k * s.batchSize < s.maxIndex
    ensures PointerAfter(s, k) == FirstRow(s) + k * s.batchSize
    ensures RowsDrawn(s, k) == Arange(FirstRow(s), FirstRow(s) + k * s.batchSize)
  {
    if k > 0 {
      var m := (k - 1) * s.batchSize;
      MulPred(k, s.batchSize);
      BatchesTile(s, k - 1);
      BatchStep(s, k, m);
    }
  }

  /** One more batch, drawn without a reset, extends the rows drawn by `batch_size` rows. */
  lemma BatchStep(s: Settings, k: nat, m: nat)
    requires k > 0 && FirstRow(s) + m + s.batchSize < s.maxIndex
    requires PointerAfter(s, k - 1) == FirstRow(s) + m
    requires RowsDrawn(s, k - 1) == Arange(FirstRow(s), FirstRow(s) + m)
    ensures PointerAfter(s, k) == FirstRow(s) + m + s.batchSize
    ensures RowsDrawn(s, k) == Arange(FirstRow(s), FirstRow(s) + m + s.batchSize)
  {
    var p := PointerAfter(s, k - 1);
    assert BatchRows(s, p) == Arange(p, p + s.batchSize);
    ArangeConcat(FirstRow(s), p, p + s.batchSize);
  }

  lemma MulPred(k: nat, b: nat)
    requires k > 0
    ensures (k - 1) * b + b == k * b
  {
  }

  /** Two adjacent ranges make one. */
  lemma ArangeConcat(lo: int, mid: int, hi: int)
    requires lo <= mid <= hi
    ensures Arange(lo, mid) + Arange(mid, hi) == Arange(lo, hi)
  {
  }

  lemma {:induction false} MulSign(d: int, b: int)
    requires b >= 0
    ensures d >= 1 ==> d * b >= b
    ensures d <= -1 ==> d * b <= -b
    decreases if d < 0 then -d else d
  {
    if d > 1 {
      MulSign(d - 1, b);
      assert d * b == (d - 1) * b + b;
    } else if d < -1 {
      MulSign(d + 1, b);
      assert d * b == (d + 1) * b - b;
    }
  }

  /** Euclidean division has one quotient and one remainder. */
  lemma DivUnique(a: nat, b: nat, q: nat, m: nat)
    requires b > 0 && m < b && a == q * b + m
    ensures a / b == q && a % b == m
  {
    var d := a / b - q;
    assert d * b == m - a % b;
    MulSign(d, b);
  }

  /** `range(r - lookback, r, step)` has `ceil(lookback / step)` elements: one more than the
      `lookback // step` slots when `step` does not divide `lookback`, as many otherwise. */
  lemma CeilDiv(lookback: nat, step: nat)
    requires step > 0
    ensures (lookback + step - 1) / step == lookback / step + (if lookback % step == 0 then 0 else 1)
  {
    var q := lookback / step;
    var m := lookback % step;
    DivUnique(lookback, step, q, m);
    if m == 0 {
      DivUnique(lookback + step - 1, step, q, step - 1);
    } else {
      DivUnique(lookback + step - 1, step, q + 1, m - 1);
    }
  }

  /** `range(r - lookback, r, step)` has `lookback // step` elements exactly when `step`
      divides `lookback`. */
  lemma WindowFitsSlots(lookback: nat, step: nat)
    requires step > 0
    ensures (lookback + step - 1) / step == lookback / step <==> lookback % step == 0
  {
    CeilDiv(lookback, step);
  }

  /** numpy stores a window in the `lookback // step` slots of a sample when it has as many
      rows, or when it has one row, which broadcasts to any number of slots. That happens
      exactly when `step` divides `lookback` or `lookback < step` (a one-row window into zero
      slots). */
  lemma WindowBroadcasts(lookback: nat, step: nat)
    requires step > 0
    ensures var w, slots := (lookback + step - 1) / step, lookback / step;
      (w == slots || w == 1) <==> (lookback % step == 0 || lookback < step)
  {
    CeilDiv(lookback, step);
    if lookback < step {
      DivUnique(lookback, step, 0, lookback);
    } else {
      DivUnique(lookback, step, lookback / step, lookback % step);
      MulSign(lookback / step, step);
    }
  }

  /** The settings under which every window fits its sample: see `WindowBroadcasts`. */
  predicate Broadcasts(s: Settings)
    requires s.step > 0
  {
    s.lookback % s.step == 0 || s.lookback < s.step
  }

  /** `samples[j] = window` for a sample of `slots` rows: numpy copies the window when the row
      counts agree and repeats a one-row window into every slot. */
  function Broadcast(window: Table, slots: nat): (stored: Table)
    requires |window| == slots || |window| == 1
    ensures |stored| == slots
    ensures |window| == slots ==> stored == window
  {
    if |window| == slots then window else seq(slots, _ => window[0])
  }

  /** The data row in slot `t` of the window before row `r`. */
  function Slot(s: Settings, r: int, t: int): int {
    r - s.lookback + t * s.step
  }

  /** `range(r - lookback, r, step)`: the data rows of the window that ends before row `r`. */
  function WindowIndices(s: Settings, r: int): (w: seq<int>)
    requires s.step > 0
    ensures |w| == (s.lookback + s.step - 1) / s.step
    ensures forall t | 0 <= t < |w| :: w[t] == Slot(s, r, t)
  {
    seq((s.lookback + s.step - 1) / s.step, t requires 0 <= t => Slot(s, r, t))
  }

  predicate WindowInRange(s: Settings, dataIn: Table, r: int)
    requires s.step > 0
  {
    forall t | 0 <= t < |WindowIndices(s, r)| :: 0 <= WindowIndices(s, r)[t] < |dataIn|
  }

  predicate TargetInRange(s: Settings, dataOut: Table, r: int) {
    0 <= r + s.delay < |dataOut|
  }

  /** `data_in[indices]`: the rows of the window that ends before row `r`. */
  function Window(s: Settings, dataIn: Table, r: int): (w: Table)
    requires s.step > 0 && WindowInRange(s, dataIn, r)
    ensures |w| == (s.lookback + s.step - 1) / s.step
    ensures forall t | 0 <= t < |w| :: 0 <= Slot(s, r, t) < |dataIn| && w[t] == dataIn[Slot(s, r, t)]
  {
    var w := WindowIndices(s, r);
    seq(|w|, t requires 0 <= t < |w| => dataIn[w[t]])
  }

  /** Sample `j` of a batch: the window before row `r` stored in `lookback // step` slots. */
  function Sample(s: Settings, dataIn: Table, r: int): (w: Table)
    requires s.step > 0 && Broadcasts(s) && WindowInRange(s, dataIn, r)
    ensures |w| == s.lookback / s.step
    ensures forall t | 0 <= t < |w| :: 0 <= Slot(s, r, t) < |dataIn| && w[t] == dataIn[Slot(s, r, t)]
  {
    WindowBroadcasts(s.lookback, s.step);
    WindowFitsSlots(s.lookback, s.step);
    Broadcast(Window(s, dataIn, r), s.lookback / s.step)
  }

  /** What the generator yields for a batch. */
  datatype Batch = Batch(samples: seq<Table>, targets: seq<Row>)

  /** The batch for `rows`, or the error its filling loop raises first: row by row, the window
      is read, then stored (which needs `step` to divide `lookback`, or `lookback < step`), then
      the target is read. */
  function BatchOf(s: Settings, dataIn: Table, dataOut: Table, rows: seq<int>): Result<Batch, BatchError>
  {
    if s.step == 0 then Err(ZeroStep)
    else if |rows| > 0 && !Broadcasts(s) then
      Err(if WindowInRange(s, dataIn, rows[0]) then BroadcastMismatch else IndexOutOfRange)
    else if exists j | 0 <= j < |rows| :: !WindowInRange(s, dataIn, rows[j]) || !TargetInRange(s, dataOut, rows[j]) then
      Err(IndexOutOfRange)
    else
      Ok(Batch(seq(|rows|, j requires 0 <= j < |rows| => Sample(s, dataIn, rows[j])),
               seq(|rows|, j requires 0 <= j < |rows| => dataOut[rows[j] + s.delay])))
  }

  /** A batch is built only with a positive `step` that divides `lookback` or exceeds it (when
      there is a row), and every window and target in range. */
  lemma BatchOfOk(s: Settings, dataIn: Table, dataOut: Table, rows: seq<int>)
    requires BatchOf(s, dataIn, dataOut, rows).Ok?
    ensures s.step > 0 && (|rows| > 0 ==> s.lookback % s.step == 0 || s.lookback < s.step)
    ensures forall j | 0 <= j < |rows| :: WindowInRange(s, dataIn, rows[j]) && TargetInRange(s, dataOut, rows[j])
    ensures BatchOf(s, dataIn, dataOut, rows).value
      == Batch(seq(|rows|, j requires 0 <= j < |rows| => Sample(s, dataIn, rows[j])),
               seq(|rows|, j requires 0 <= j < |rows| => dataOut[rows[j] + s.delay]))
  {
  }

  /** A batch that is built holds, for each row `r`, the `lookback / step` data rows
      `r - lookback, r - lookback + step, ...` below `r` (none when `lookback < step`) and the
      target `delay` rows after `r`. */
  lemma BatchContents(s: Settings, dataIn: Table, dataOut: Table, rows: seq<int>)
    requires BatchOf(s, dataIn, dataOut, rows).Ok?
    ensures var b := BatchOf(s, dataIn, dataOut, rows).value;
      && s.step > 0 && |b.samples| == |rows| == |b.targets|
      && (forall j | 0 <= j < |rows| :: b.targets[j] == dataOut[rows[j] + s.delay])
      && (forall j | 0 <= j < |rows| :: |b.samples[j]| == s.lookback / s.step)
      && (forall j | 0 <= j < |rows| :: forall t | 0 <= t < |b.samples[j]| ::
            0 <= Slot(s, rows[j], t) < |dataIn| && b.samples[j][t] == dataIn[Slot(s, rows[j], t)])
  {
    BatchOfOk(s, dataIn, dataOut, rows);
  }

  /** Storing a window fails exactly when it has several rows and `step` does not divide
      `lookback`; the first row's window is stored before any other. */
  lemma BatchBroadcastError(s: Settings, dataIn: Table, dataOut: Table, rows: seq<int>)
    ensures BatchOf(s, dataIn, dataOut, rows) == Err(BroadcastMismatch)
      <==> s.step > 0 && |rows| > 0 && s.lookback % s.step != 0 && s.lookback >= s.step
           && WindowInRange(s, dataIn, rows[0])
  {
  }

  /** With `0 < lookback < step` the one-row window broadcasts into zero slots: the batch is
      built, with empty samples, e.g. `lookback = 2, step = 3` over three rows. */
  lemma ZeroSlotBatch()
    ensures BatchOf(Settings(0, 3, 2, 0, 1, 3), [[1.0], [2.0], [3.0]], [[1.0], [2.0], [3.0]], [2])
      == Ok(Batch([[]], [[3.0]]))
  {
    var s := Settings(0, 3, 2, 0, 1, 3);
    var data: Table := [[1.0], [2.0], [3.0]];
    assert WindowIndices(s, 2) == [0];
    assert WindowInRange(s, data, 2) && TargetInRange(s, data, 2) && Broadcasts(s);
    assert Sample(s, data, 2) == [];
    var rows := [2];
    assert seq(|rows|, j requires 0 <= j < |rows| => Sample(s, data, rows[j])) == [[]];
    assert seq(|rows|, j requires 0 <= j < |rows| => data[rows[j] + s.delay]) == [[3.0]];
  }

  /** The default `max_index` keeps every target inside `data_out` when both arrays have the
      same length: no batch of a well-shaped generator fails for a missing target. */
  lemma DefaultTargetsInRange(s: Settings, dataIn: Table, dataOut: Table, i: int)
    requires |dataIn| == |dataOut| && s.maxIndex == DefaultMaxIndex(|dataIn|, s.delay)
    requires PointerOk(s, i)
    ensures var rows := BatchRows(s, i);
      forall j | 0 <= j < |rows| :: TargetInRange(s, dataOut, rows[j])
  {
    BatchRowsInRange(s, i);
  }

  /** `samples[j] = data_in[indices]` for the window before row `r`: the window is read, then
      stored in the `lookback // step` slots of the sample by numpy's broadcasting rule. */
  method StoreWindow(s: Settings, dataIn: Table, r: int) returns (res: Result<Table, BatchError>)
    requires s.step > 0
    ensures !WindowInRange(s, dataIn, r) ==> res == Err(IndexOutOfRange)
    ensures WindowInRange(s, dataIn, r) && !Broadcasts(s) ==> res == Err(BroadcastMismatch)
    ensures WindowInRange(s, dataIn, r) && Broadcasts(s) ==> res == Ok(Sample(s, dataIn, r))
  {
    if !WindowInRange(s, dataIn, r) {
      return Err(IndexOutOfRange);
    }
    var window := Window(s, dataIn, r);
    var slots := s.lookback / s.step;
    WindowBroadcasts(s.lookback, s.step);
    if |window| != slots && |window| != 1 {
      return Err(BroadcastMismatch);
    }
    res := Ok(Broadcast(window, slots));
  }

  /** The loop that fills `samples` and `targets` for a batch, row by row. */
  method FillBatch(s: Settings, dataIn: Table, dataOut: Table, rows: seq<int>) returns (r: Result<Batch, BatchError>)
    ensures r == BatchOf(s, dataIn, dataOut, rows)
  {
    if s.step == 0 {
      return Err(ZeroStep);
    }
    var samples: seq<Table> := [];
    var targets: seq<Row> := [];
    var j := 0;
    while j < |rows|
      invariant 0 <= j <= |rows| && |samples| == j && |targets| == j
      invariant j > 0 ==> Broadcasts(s)
      invariant forall p | 0 <= p < j :: WindowInRange(s, dataIn, rows[p]) && TargetInRange(s, dataOut, rows[p])
      invariant forall p | 0 <= p < j :: samples[p] == Sample(s, dataIn, rows[p]) && targets[p] == dataOut[rows[p] + s.delay]
    {
      var stored := StoreWindow(s, dataIn, rows[j]);
      if stored.Err? {
        return Err(stored.error);
      }
      // targets[j] = data_out[rows[j] + delay]
      if !TargetInRange(s, dataOut, rows[j]) {
        return Err(IndexOutOfRange);
      }
      samples := samples + [stored.value];
      targets := targets + [dataOut[rows[j] + s.delay]];
      j := j + 1;
    }
    assert samples == seq(|rows|, j requires 0 <= j < |rows| => Sample(s, dataIn, rows[j]));
    assert targets == seq(|rows|, j requires 0 <= j < |rows| => dataOut[rows[j] + s.delay]);
    r := Ok(Batch(samples, targets));
  }

  /** The deterministic branch of `timeseries_generator`: the data it reads, its settings, the
      row pointer `i` it keeps between batches, and whether it has finished by raising. */
  class TimeseriesGenerator {
    const dataIn: Table
    const dataOut: Table
    const settings: Settings
    var i: int
    var finished: bool

    predicate Valid()
      reads this
    {
      PointerOk(settings, i)
    }

    constructor(dataIn: Table, dataOut: Table, settings: Settings)
      ensures this.dataIn == dataIn && this.dataOut == dataOut && this.settings == settings
      ensures i == FirstRow(settings) && !finished && Valid()
    {
      this.dataIn := dataIn;
      this.dataOut := dataOut;
      this.settings := settings;
      i := FirstRow(settings);
      finished := false;
    }

    /** One `next()` of the generator: reset the pointer if the batch would reach `max_index`,
        take the rows from it up to `batch_size` or `max_index`, advance the pointer past them,
        then fill the batch. A batch that raises finishes the generator: every later `next()`
        raises `StopIteration` and changes nothing. */
    method Next() returns (r: Result<Batch, BatchError>)
      requires Valid()
      modifies this`i, this`finished
      ensures Valid()
      ensures old(finished) ==> r == Err(Exhausted) && i == old(i) && finished
      ensures !old(finished) ==> i == NextPointer(settings, old(i))
      ensures !old(finished) ==> r == BatchOf(settings, dataIn, dataOut, BatchRows(settings, old(i)))
      ensures !old(finished) ==> finished == r.Err?
    {
      if finished {
        return Err(Exhausted);
      }
      if i + settings.batchSize >= settings.maxIndex {
        i := FirstRow(settings);
      }
      var rows := Arange(i, Min(i + settings.batchSize, settings.maxIndex));
      i := i + |rows|;
      NextPointerOk(settings, old(i));
      r := FillBatch(settings, dataIn, dataOut, rows);
      finished := r.Err?;
    }
  }

  /** `timeseries_generator(data_in, data_out, min_index, max_index, lookback, delay,
      include_out, batch_size=..., step=...)` with `shuffle=False`: the output columns are
      appended to the inputs when `include_out` is set, and `max_index` defaults to
      `len(data_in) - delay - 1`. */
  method MakeGenerator(dataIn: Table, dataOut: Table, minIndex: nat, maxIndex: Option<int>, lookback: nat,
                       delay: nat, includeOut: bool, batchSize: nat, step: nat)
    returns (r: Result<TimeseriesGenerator, ShapeError>)
    ensures r.Ok? <==> !includeOut || |dataIn| == |dataOut|
    ensures r.Ok? ==> fresh(r.value) && r.value.Valid() && r.value.i == minIndex + lookback && !r.value.finished
    ensures r.Ok? ==> r.value.dataOut == dataOut
    ensures r.Ok? ==> r.value.dataIn == (if includeOut then Concatenate(dataIn, dataOut).value else dataIn)
    ensures r.Ok? ==> r.value.settings == Settings(minIndex,
      if maxIndex.Some? then maxIndex.value else DefaultMaxIndex(|dataIn|, delay),
      lookback, delay, batchSize, step)
  {
    var data := dataIn;
    if includeOut {
      var c := Concatenate(dataIn, dataOut);
      if c.Err? {
        return Err(c.error);
      }
      data := c.value;
    }
    var max := if maxIndex.Some? then maxIndex.value else DefaultMaxIndex(|data|, delay);
    var g := new TimeseriesGenerator(data, dataOut, Settings(minIndex, max, lookback, delay, batchSize, step));
    r := Ok(g);
  }
}
