/** Column and row cleanup of a log table read from a csv or excel file
    (utils/filescleanup.py, `clean_up_df`). Columns named in the project's log registry are
    renamed to `name,unit`; other columns are dropped under `strict_remove` and kept as they are
    otherwise. Rows survive when every cell of every numeric column is positive. */
module FilesCleanup {
  import opened Wrappers
  import opened Tables

  /** A cell of a pandas frame: a number, a string, or NaN. */
  datatype Cell = Number(value: real) | Text(text: string) | Missing

  datatype Column = Column(name: string, cells: seq<Cell>)

  /** A frame: its columns in order, and its number of rows. */
  datatype Frame = Frame(columns: seq<Column>, height: nat)

  datatype CleanError =
    | MaskLengthMismatch  // ValueError: a row mask computed after `dropna` is applied to the frame before it

  /** `LOG_NAMES_UNITS_DICT` (input/LOG_UNITS.py): the logs the project expects, with their units. */
  const LogUnits: map<string, string> := map[
    "Hole Depth" := "ft",
    "Rate Of Penetration" := "ft/hr",
    "Rotary RPM" := "rev/min",
    "Rotary Torque" := "in/lb",
    "Weight on Bit" := "kDaN",
    "Differential Pressure" := "kPa",
    "Inclination" := "degree",
    "Gamma" := "API"
  ]

  predicate WellFormed(f: Frame) {
    forall k | 0 <= k < |f.columns| :: |f.columns[k].cells| == f.height
  }

  function Names(cols: seq<Column>): set<string>
  {
    set k | 0 <= k < |cols| :: cols[k].name
  }

  /** The name a column gets: registry logs get their unit appended, the others keep theirs. */
  function NewName(units: map<string, string>, name: string): string {
    if name in units then name + "," + units[name] else name
  }

  /** `df.drop(columns=...)` for every name in `gone`: the other columns, in order. */
  function DropNames(cols: seq<Column>, gone: set<string>): (r: seq<Column>)
  {
    if cols == [] then []
    else (if cols[0].name in gone then [] else [cols[0]]) + DropNames(cols[1..], gone)
  }

  /** Exactly the columns whose name is not in `gone` survive `DropNames`. */
  lemma {:induction false} DropNamesKeeps(cols: seq<Column>, gone: set<string>)
    ensures var r := DropNames(cols, gone);
      && |r| <= |cols|
      && (forall k | 0 <= k < |r| :: r[k] in cols && r[k].name !in gone)
      && (forall k | 0 <= k < |cols| && cols[k].name !in gone :: cols[k] in r)
  {
    if cols != [] {
      DropNamesKeeps(cols[1..], gone);
      var r := DropNames(cols, gone);
      var rest := DropNames(cols[1..], gone);
      forall k | 0 <= k < |cols| && cols[k].name !in gone ensures cols[k] in r {
        if k > 0 {
          assert cols[k] == cols[1..][k - 1];
        }
      }
    }
  }

  lemma {:induction false} DropNothing(cols: seq<Column>)
    ensures DropNames(cols, {}) == cols
  {
    if cols != [] {
      DropNothing(cols[1..]);
    }
  }

  /** Dropping one more name after some names is dropping all of them at once. */
  lemma {:induction false} DropNamesAdd(cols: seq<Column>, gone: set<string>, n: string)
    ensures DropNames(DropNames(cols, gone), {n}) == DropNames(cols, gone + {n})
  {
    if cols != [] {
      DropNamesAdd(cols[1..], gone, n);
      var head := if cols[0].name in gone then [] else [cols[0]];
      DropNamesConcat(head, DropNames(cols[1..], gone), {n});
    }
  }

  lemma {:induction false} DropNamesConcat(a: seq<Column>, b: seq<Column>, gone: set<string>)
    ensures DropNames(a + b, gone) == DropNames(a, gone) + DropNames(b, gone)
  {
    if a == [] {
      assert a + b == b;
    } else {
      assert (a + b)[1..] == a[1..] + b;
      DropNamesConcat(a[1..], b, gone);
    }
  }

  /** `df.rename(columns=m)`: every column whose name is a key of `m` takes the mapped name. */
  function Rename(cols: seq<Column>, m: map<string, string>): (r: seq<Column>)
    ensures |r| == |cols|
    ensures forall k | 0 <= k < |cols| ::
      r[k] == Column(if cols[k].name in m then m[cols[k].name] else cols[k].name, cols[k].cells)
  {
    seq(|cols|, k requires 0 <= k < |cols| =>
      Column(if cols[k].name in m then m[cols[k].name] else cols[k].name, cols[k].cells))
  }

  /** The columns that survive the column loop, renamed. */
  function KeptColumns(cols: seq<Column>, strictRemove: bool, units: map<string, string>): (r: seq<Column>)
  {
    var gone := if strictRemove then Names(cols) - units.Keys else {};
    var kept := DropNames(cols, gone);
    seq(|kept|, k requires 0 <= k < |kept| => Column(NewName(units, kept[k].name), kept[k].cells))
  }

  /** The positions `x < n` that satisfy `p`, in increasing order. */
  function Where(n: nat, p: nat -> bool): seq<nat> {
    if n == 0 then [] else Where(n - 1, p) + (if p(n - 1) then [n - 1] else [])
  }

  /** `Where` selects exactly the positions below `n` that satisfy `p`, in increasing order. */
  lemma {:induction false} WhereSpec(n: nat, p: nat -> bool)
    ensures var r := Where(n, p);
      && |r| <= n
      && (forall i | 0 <= i < |r| :: r[i] < n && p(r[i]))
      && (forall i, j | 0 <= i < j < |r| :: r[i] < r[j])
      && (forall x: nat | x < n && p(x) :: x in r)
  {
    if n > 0 {
      WhereSpec(n - 1, p);
      var w := Where(n - 1, p);
      var r := Where(n, p);
      assert r == w + (if p(n - 1) then [n - 1] else []);
      forall x: nat | x < n && p(x) ensures x in r {
        if x < n - 1 {
          var i :| 0 <= i < |w| && w[i] == x;
          assert r[i] == x;
        } else {
          assert r[|r| - 1] == x;
        }
      }
    }
  }

  /** When every position satisfies `p`, `Where` keeps them all. */
  lemma {:induction false} WhereAll(n: nat, p: nat -> bool)
    requires forall x: nat | x < n :: p(x)
    ensures |Where(n, p)| == n && forall j | 0 <= j < n :: Where(n, p)[j] == j
  {
    if n > 0 {
      WhereAll(n - 1, p);
      var w := Where(n - 1, p);
      assert p(n - 1);
      var r := Where(n, p);
      assert r == w + [n - 1];
      forall j | 0 <= j < n ensures r[j] == j {
        if j < n - 1 {
          assert r[j] == w[j];
        }
      }
    }
  }

  /** A position that fails `p` makes `Where` strictly shorter than `n`. */
  lemma {:induction false} WhereShort(n: nat, p: nat -> bool, x: nat)
    requires x < n && !p(x)
    ensures |Where(n, p)| < n
  {
    var w := Where(n - 1, p);
    WhereSpec(n - 1, p);
    assert |Where(n, p)| <= |w| + 1;
    if x < n - 1 {
      WhereShort(n - 1, p, x);
    } else {
      assert Where(n, p) == w;
    }
  }

  /** A column pandas stores with a numeric dtype: no string cell (NaN is a float). */
  predicate IsNumeric(c: Column) {
    forall i | 0 <= i < |c.cells| :: !c.cells[i].Text?
  }

  predicate HasRow(cols: seq<Column>, r: nat) {
    forall k | 0 <= k < |cols| :: r < |cols[k].cells|
  }

  /** Row `r` has no NaN cell (it survives `dropna`). */
  predicate Complete(cols: seq<Column>, r: nat)
    requires HasRow(cols, r)
  {
    forall k | 0 <= k < |cols| :: cols[k].cells[r] != Missing
  }

  /** Every numeric cell of row `r` is a positive number. */
  predicate PositiveRow(cols: seq<Column>, r: nat)
    requires HasRow(cols, r)
  {
    forall k | 0 <= k < |cols| && IsNumeric(cols[k]) :: cols[k].cells[r].Number? && cols[k].cells[r].value > 0.0
  }

  /** The rows of a `height`-row table whose numeric cells are all positive, in order. */
  function PositiveRows(cols: seq<Column>, height: nat): (rows: seq<nat>)
    requires forall r: nat | r < height :: HasRow(cols, r)
    ensures forall r: nat | r < height :: r in rows <==> PositiveRow(cols, r)
    ensures forall j | 0 <= j < |rows| :: rows[j] < height
    ensures forall i, j | 0 <= i < j < |rows| :: rows[i] < rows[j]
  {
    var p := (r: nat) => r < height && PositiveRow(cols, r);
    WhereSpec(height, p);
    Where(height, p)
  }

  /** The rows `dropna` keeps: those without a NaN cell, in order. */
  function CompleteRows(cols: seq<Column>, height: nat): (rows: seq<nat>)
    requires forall r: nat | r < height :: HasRow(cols, r)
    ensures forall r: nat | r < height :: r in rows <==> Complete(cols, r)
    ensures forall j | 0 <= j < |rows| :: rows[j] < height
    ensures forall i, j | 0 <= i < j < |rows| :: rows[i] < rows[j]
  {
    var p := (r: nat) => r < height && Complete(cols, r);
    WhereSpec(height, p);
    Where(height, p)
  }

  /** `dropna` keeps all `height` rows exactly when no row holds a NaN, and then keeps them in
      place. */
  lemma CompleteRowsLength(cols: seq<Column>, height: nat)
    requires forall r: nat | r < height :: HasRow(cols, r)
    ensures |CompleteRows(cols, height)| == height <==> forall x: nat | x < height :: Complete(cols, x)
    ensures |CompleteRows(cols, height)| == height ==>
      forall j | 0 <= j < height :: CompleteRows(cols, height)[j] == j
  {
    var p := (r: nat) => r < height && Complete(cols, r);
    if forall x: nat | x < height :: Complete(cols, x) {
      WhereAll(height, p);
    } else {
      var x: nat :| x < height && !Complete(cols, x);
      WhereShort(height, p, x);
    }
  }

  /** `df[rows]` for a list of row positions. */
  function SelectRows(cols: seq<Column>, rows: seq<nat>): (f: Frame)
    requires forall j, k | 0 <= j < |rows| && 0 <= k < |cols| :: rows[j] < |cols[k].cells|
    ensures WellFormed(f) && f.height == |rows| && |f.columns| == |cols|
    ensures forall k | 0 <= k < |cols| :: f.columns[k].name == cols[k].name
    ensures forall k, j | 0 <= k < |cols| && 0 <= j < |rows| :: f.columns[k].cells[j] == cols[k].cells[rows[j]]
  {
    Frame(seq(|cols|, k requires 0 <= k < |cols| =>
      Column(cols[k].name, seq(|rows|, j requires 0 <= j < |rows| => cols[k].cells[rows[j]]))), |rows|)
  }

  lemma KeptColumnsShape(frame: Frame, strictRemove: bool)
    requires WellFormed(frame)
    ensures var cols := KeptColumns(frame.columns, strictRemove, LogUnits);
      forall k | 0 <= k < |cols| :: |cols[k].cells| == frame.height
  {
    var gone := if strictRemove then Names(frame.columns) - LogUnits.Keys else {};
    DropNamesKeeps(frame.columns, gone);
  }

  /** `clean_up_df` as a value: the column selection and renaming, then the row filter, which
      fails when the kept columns hold a NaN cell. */
  function CleanUp(frame: Frame, strictRemove: bool): Result<Frame, CleanError>
    requires WellFormed(frame)
  {
    var cols := KeptColumns(frame.columns, strictRemove, LogUnits);
    KeptColumnsShape(frame, strictRemove);
    if exists r: nat | r < frame.height :: !Complete(cols, r) then Err(MaskLengthMismatch)
    else Ok(SelectRows(cols, PositiveRows(cols, frame.height)))
  }

  /** Renaming columns whose names all carry their `NewName` in `m`. */
  lemma RenameKept(kept: seq<Column>, m: map<string, string>, units: map<string, string>)
    requires forall k | 0 <= k < |kept| :: kept[k].name in m && m[kept[k].name] == NewName(units, kept[k].name)
    ensures Rename(kept, m) == seq(|kept|, k requires 0 <= k < |kept| => Column(NewName(units, kept[k].name), kept[k].cells))
  {
  }

  /** What the column loop has built once every name is visited yields the kept, renamed columns. */
  lemma LoopDone(cols: seq<Column>, strictRemove: bool, units: map<string, string>, gone: set<string>, newLogs: map<string, string>)
    requires forall x :: x in gone <==> strictRemove && x in Names(cols) && x !in units
    requires forall n :: n in newLogs <==> n in Names(cols) && (n in units || !strictRemove)
    requires forall n | n in newLogs :: newLogs[n] == NewName(units, n)
    ensures Rename(DropNames(cols, gone), newLogs) == KeptColumns(cols, strictRemove, units)
  {
    assert gone == if strictRemove then Names(cols) - units.Keys else {};
    var df := DropNames(cols, gone);
    DropNamesKeeps(cols, gone);
    forall k | 0 <= k < |df| ensures df[k].name in Names(cols) {
      var j :| 0 <= j < |cols| && cols[j] == df[k];
    }
    RenameKept(df, newLogs, units);
  }

  /** The column part of `clean_up_df`: the loop walks the original column names in whatever
      order the set yields them, collecting renames and dropping unregistered columns under
      `strict_remove`, then the frame is renamed. */
  method RenameColumns(cols: seq<Column>, strictRemove: bool, units: map<string, string>) returns (df: seq<Column>)
    ensures df == KeptColumns(cols, strictRemove, units)
  {
    var origLogs := Names(cols);
    var apiLogs := units.Keys;
    var definedLogs := origLogs * apiLogs;
    var checkLogs := if strictRemove then definedLogs else origLogs;
    var newLogs: map<string, string> := map[];
    df := cols;
    var todo := checkLogs + origLogs;
    ghost var gone: set<string> := {};
    DropNothing(cols);
    while todo != {}
      invariant todo <= origLogs
      invariant forall x :: x in gone <==> strictRemove && x in origLogs && x !in todo && x !in apiLogs
      invariant df == DropNames(cols, gone)
      invariant forall n :: n in newLogs <==> n in origLogs - todo && (n in apiLogs || !strictRemove)
      invariant forall n | n in newLogs :: newLogs[n] == NewName(units, n)
      decreases |todo|
    {
      var n :| n in todo;
      if n in apiLogs {
        newLogs := newLogs[n := n + "," + units[n]];
      } else if strictRemove {
        DropNamesAdd(cols, gone, n);
        df := DropNames(df, {n});
        gone := gone + {n};
      } else {
        newLogs := newLogs[n := n];
      }
      todo := todo - {n};
    }
    LoopDone(cols, strictRemove, units, gone, newLogs);
    df := Rename(df, newLogs);
  }

  /** `clean_up_df(orig_df, strict_remove, APIcheck)`: the columns are selected and renamed, then
      the row mask is computed on the frame without NaN rows and applied to the frame with them.
      `APIcheck` only selects warnings. */
  method CleanUpDf(frame: Frame, strictRemove: bool, apiCheck: bool) returns (r: Result<Frame, CleanError>)
    requires WellFormed(frame)
    ensures r == CleanUp(frame, strictRemove)
  {
    var df := RenameColumns(frame.columns, strictRemove, LogUnits);
    KeptColumnsShape(frame, strictRemove);
    var height := frame.height;
    // new_df = orig_df.dropna(): the positions of the rows without NaN
    var complete := CompleteRows(df, height);
    // masked_rows.all(axis=1), one entry per row of new_df
    var rowsLocation := seq(|complete|, j requires 0 <= j < |complete| => PositiveRow(df, complete[j]));
    CompleteRowsLength(df, height);
    if |rowsLocation| != height {
      return Err(MaskLengthMismatch);
    }
    // orig_df[rows_location]
    var rows := MaskedRows(df, height, rowsLocation);
    r := Ok(SelectRows(df, rows));
  }

  /** The positions selected by a boolean row mask, in order. */
  method MaskedRows(df: seq<Column>, height: nat, rowsLocation: seq<bool>) returns (rows: seq<nat>)
    requires forall k | 0 <= k < |df| :: |df[k].cells| == height
    requires |rowsLocation| == height
    requires forall x: nat | x < height :: rowsLocation[x] == PositiveRow(df, x)
    ensures rows == PositiveRows(df, height)
  {
    rows := [];
    var i := 0;
    while i < height
      invariant 0 <= i <= height
      invariant rows == Where(i, (x: nat) => x < height && PositiveRow(df, x))
    {
      if rowsLocation[i] {
        rows := rows + [i];
      }
      i := i + 1;
    }
  }

  /** Every kept column comes from an input column that is in the registry or survives because
      `strict_remove` is off, under its `NewName`; and every such input column is kept. */
  lemma KeptColumnsFrom(cols: seq<Column>, strictRemove: bool, units: map<string, string>)
    ensures var kept := KeptColumns(cols, strictRemove, units);
      && (forall j | 0 <= j < |kept| :: exists k | 0 <= k < |cols| ::
            (cols[k].name in units || !strictRemove) && kept[j] == Column(NewName(units, cols[k].name), cols[k].cells))
      && (forall k | 0 <= k < |cols| && (cols[k].name in units || !strictRemove) ::
            Column(NewName(units, cols[k].name), cols[k].cells) in kept)
  {
    var gone := if strictRemove then Names(cols) - units.Keys else {};
    var dropped := DropNames(cols, gone);
    var kept := KeptColumns(cols, strictRemove, units);
    DropNamesKeeps(cols, gone);
    forall j | 0 <= j < |kept| ensures exists k | 0 <= k < |cols| ::
      (cols[k].name in units || !strictRemove) && kept[j] == Column(NewName(units, cols[k].name), cols[k].cells)
    {
      var k :| 0 <= k < |cols| && cols[k] == dropped[j];
      assert cols[k].name in Names(cols);
    }
    forall k | 0 <= k < |cols| && (cols[k].name in units || !strictRemove)
      ensures Column(NewName(units, cols[k].name), cols[k].cells) in kept
    {
      var j :| 0 <= j < |dropped| && dropped[j] == cols[k];
      assert kept[j] == Column(NewName(units, cols[k].name), cols[k].cells);
    }
  }

  /** No registry name contains a comma. */
  lemma RegistryHasNoComma()
    ensures forall key | key in LogUnits :: ',' !in key
  {
  }

  /** A renamed registry column is never itself a registry name. */
  lemma RenamedOutsideRegistry(name: string)
    requires name in LogUnits
    ensures NewName(LogUnits, name) !in LogUnits
  {
    var renamed := NewName(LogUnits, name);
    assert renamed[|name|] == ',';
    RegistryHasNoComma();
  }

  lemma {:induction false} DropEverything(cols: seq<Column>, gone: set<string>)
    requires forall k | 0 <= k < |cols| :: cols[k].name in gone
    ensures DropNames(cols, gone) == []
  {
    if cols != [] {
      DropEverything(cols[1..], gone);
    }
  }

  /** Cleaning is not idempotent: cleaning a cleaned frame again with `strict_remove` drops every
      column, since no kept name, renamed or not, is a registry name. */
  lemma RecleanDropsEverything(frame: Frame, strictRemove: bool)
    requires WellFormed(frame) && CleanUp(frame, strictRemove).Ok?
    ensures KeptColumns(CleanUp(frame, strictRemove).value.columns, true, LogUnits) == []
  {
    var cols := KeptColumns(frame.columns, strictRemove, LogUnits);
    var out := CleanUp(frame, strictRemove).value.columns;
    KeptColumnsFrom(frame.columns, strictRemove, LogUnits);
    forall j | 0 <= j < |out| ensures out[j].name in Names(out) - LogUnits.Keys {
      var k :| 0 <= k < |frame.columns| && (frame.columns[k].name in LogUnits || !strictRemove)
        && cols[j] == Column(NewName(LogUnits, frame.columns[k].name), frame.columns[k].cells);
      if frame.columns[k].name in LogUnits {
        RenamedOutsideRegistry(frame.columns[k].name);
      }
    }
    DropEverything(out, Names(out) - LogUnits.Keys);
  }

  /** `clean_up_df` fails exactly when a kept column holds a NaN; otherwise it keeps the kept
      columns in order, and comes back empty (not failing) exactly when no row is all positive. */
  lemma CleanUpOutcome(frame: Frame, strictRemove: bool)
    requires WellFormed(frame)
    ensures var r := CleanUp(frame, strictRemove);
      var cols := KeptColumns(frame.columns, strictRemove, LogUnits);
      && (r.Ok? <==> forall x: nat | x < frame.height :: HasRow(cols, x) && Complete(cols, x))
      && (r.Err? ==> r.error == MaskLengthMismatch)
      && (r.Ok? ==> WellFormed(r.value) && |r.value.columns| == |cols|)
      && (r.Ok? ==> forall k | 0 <= k < |cols| :: r.value.columns[k].name == cols[k].name)
      && (r.Ok? ==> (r.value.height == 0 <==> forall x: nat | x < frame.height :: HasRow(cols, x) && !PositiveRow(cols, x)))
  {
    var cols := KeptColumns(frame.columns, strictRemove, LogUnits);
    KeptColumnsShape(frame, strictRemove);
    var rows := PositiveRows(cols, frame.height);
    if rows != [] {
      assert PositiveRow(cols, rows[0]);
    }
  }
}
