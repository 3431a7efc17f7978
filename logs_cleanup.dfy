/** Extraction of well-log curves from one LAS source (utils/logscleanup.py, lines 11-103).

    A source is identified by its path; a hard-coded table gives the row where readings start,
    the curves to take with their column positions, and their units. The reading loop takes the
    mapped columns of every row from that offset on; an optional filter keeps only rows whose
    mapped readings are all strictly positive; each curve is then the table's column at the
    curve's position in mapping order. File access is not modelled: the source arrives as lines
    already split into tokens. */
module LogsCleanup {
  import opened Wrappers
  import opened Tables
  import opened OrderedDicts

  const EdrPath: string := "../input_template/Middleton Unit B 47-38 No. 8SH__From EDR.las"
  const MwdPath: string := "../input_template/LAS Middleton Unit B 47-38 No. 8SH_From MWD.las"

  /** Row offset, curve name -> column index, curve name -> unit. */
  datatype AttrMapping = AttrMapping(rowStart: nat, columns: Dict<nat>, units: Dict<string>)

  /** A whitespace-separated token of a LAS line: one that `float` accepts, or any other. */
  datatype Token = Number(value: real) | Word(text: string)

  datatype ReadError =
    | UnknownLasFile(path: string)      // ValueError: the path has no mapping
    | MissingColumn(row: nat, col: nat)  // IndexError: the line has no token at a mapped column
    | NotANumber(row: nat, col: nat)     // ValueError: `float` rejects the token
    | NoReadings                         // numpy fails on the 1-D empty array of a source without rows

  /** The insertion that `_get_mapping` performs, as a value: the pairs of a three-way zip
      assigned in order into two ordered dicts. */
  function ZipMapping(names: seq<string>, cols: seq<nat>, units: seq<string>): (Dict<nat>, Dict<string>)
  {
    var n := if |names| <= |cols| && |names| <= |units| then |names|
             else if |cols| <= |units| then |cols| else |units|;
    (PutAll(Zip(names[..n], cols[..n])), PutAll(Zip(names[..n], units[..n])))
  }

  /** `_get_mapping`: one assignment per zipped triple into each ordered dict. */
  method GetMapping(names: seq<string>, cols: seq<nat>, units: seq<string>)
    returns (colMap: Dict<nat>, unitMap: Dict<string>)
    ensures (colMap, unitMap) == ZipMapping(names, cols, units)
  {
    var n := if |names| <= |cols| && |names| <= |units| then |names|
             else if |cols| <= |units| then |cols| else |units|;
    colMap, unitMap := [], [];
    var j := 0;
    while j < n
      invariant 0 <= j <= n
      invariant colMap == Assigned(names, cols, j)
      invariant unitMap == Assigned(names, units, j)
    {
      colMap := Put(colMap, names[j], cols[j]);
      unitMap := Put(unitMap, names[j], units[j]);
      j := j + 1;
    }
    AssignedIsPutAll(names, cols, n);
    AssignedIsPutAll(names, units, n);
  }

  const EdrNames: seq<string> := ["TVD", "ROP", "RPM", "TOR", "WOB", "DIFP"]
  const EdrColumns: seq<nat> := [0, 2, 3, 4, 5, 9]
  const EdrUnits: seq<string> := ["ft", "ft/hr", "rev/min", "in/lb", "kDaN", "kPa"]
  const MwdNames: seq<string> := ["TVD", "GR"]
  const MwdColumns: seq<nat> := [0, 1]
  const MwdUnits: seq<string> := ["ft", "API"]

  /** The hard-coded path lookup of `get_specific_attr_mapping`. */
  function SpecificAttrMapping(path: string): (r: Result<AttrMapping, ReadError>)
    ensures r.Err? <==> path != EdrPath && path != MwdPath
    ensures r.Err? ==> r.error == UnknownLasFile(path)
  {
    if path == EdrPath then
      var (c, u) := ZipMapping(EdrNames, EdrColumns, EdrUnits);
      Ok(AttrMapping(47, c, u))
    else if path == MwdPath then
      var (c, u) := ZipMapping(MwdNames, MwdColumns, MwdUnits);
      Ok(AttrMapping(203, c, u))
    else
      Err(UnknownLasFile(path))
  }

  /** `get_specific_attr_mapping` */
  method GetSpecificAttrMapping(path: string) returns (r: Result<AttrMapping, ReadError>)
    ensures r == SpecificAttrMapping(path)
  {
    var start: nat, names: seq<string>, cols: seq<nat>, units: seq<string>;
    if path == EdrPath {
      start, names, cols, units := 47, EdrNames, EdrColumns, EdrUnits;
    } else if path == MwdPath {
      start, names, cols, units := 203, MwdNames, MwdColumns, MwdUnits;
    } else {
      return Err(UnknownLasFile(path));
    }
    var colMap, unitMap := GetMapping(names, cols, units);
    r := Ok(AttrMapping(start, colMap, unitMap));
  }

  /** With distinct names and lists of one length, the mapping is the zipped lists. */
  lemma ZipMappingDistinct(names: seq<string>, cols: seq<nat>, units: seq<string>)
    requires |names| == |cols| == |units|
    requires forall i, j | 0 <= i < j < |names| :: names[i] != names[j]
    ensures ZipMapping(names, cols, units) == (Zip(names, cols), Zip(names, units))
  {
    assert names[..|names|] == names && cols[..|cols|] == cols && units[..|units|] == units;
    PutAllDistinct(Zip(names, cols));
    PutAllDistinct(Zip(names, units));
  }

  lemma EdrLists()
    ensures forall i, j | 0 <= i < j < |EdrNames| :: EdrNames[i] != EdrNames[j]
    ensures Zip(EdrNames, EdrColumns) ==
      [("TVD", 0), ("ROP", 2), ("RPM", 3), ("TOR", 4), ("WOB", 5), ("DIFP", 9)]
    ensures Zip(EdrNames, EdrUnits) ==
      [("TVD", "ft"), ("ROP", "ft/hr"), ("RPM", "rev/min"), ("TOR", "in/lb"), ("WOB", "kDaN"),
       ("DIFP", "kPa")]
  {
    assert forall i, j | 0 <= i < j < 6 ::
      EdrNames[i][0] != EdrNames[j][0] || EdrNames[i][1] != EdrNames[j][1];
    var zc, zu := Zip(EdrNames, EdrColumns), Zip(EdrNames, EdrUnits);
    assert |zc| == 6 && zc[0] == ("TVD", 0) && zc[1] == ("ROP", 2) && zc[2] == ("RPM", 3);
    assert zc[3] == ("TOR", 4) && zc[4] == ("WOB", 5) && zc[5] == ("DIFP", 9);
    assert |zu| == 6 && zu[0] == ("TVD", "ft") && zu[1] == ("ROP", "ft/hr");
    assert zu[2] == ("RPM", "rev/min") && zu[3] == ("TOR", "in/lb");
    assert zu[4] == ("WOB", "kDaN") && zu[5] == ("DIFP", "kPa");
  }

  /** The EDR source starts at row 47 and maps its six curves to their columns and units, in
      the listed order. */
  lemma EdrMapping()
    ensures SpecificAttrMapping(EdrPath) == Ok(AttrMapping(47,
      [("TVD", 0), ("ROP", 2), ("RPM", 3), ("TOR", 4), ("WOB", 5), ("DIFP", 9)],
      [("TVD", "ft"), ("ROP", "ft/hr"), ("RPM", "rev/min"), ("TOR", "in/lb"), ("WOB", "kDaN"),
       ("DIFP", "kPa")]))
  {
    EdrLists();
    ZipMappingDistinct(EdrNames, EdrColumns, EdrUnits);
  }

  lemma MwdLists()
    ensures EdrPath != MwdPath && MwdNames[0] != MwdNames[1]
    ensures Zip(MwdNames, MwdColumns) == [("TVD", 0), ("GR", 1)]
    ensures Zip(MwdNames, MwdUnits) == [("TVD", "ft"), ("GR", "API")]
  {
    assert |EdrPath| != |MwdPath| && |MwdNames[0]| != |MwdNames[1]|;
    var zc, zu := Zip(MwdNames, MwdColumns), Zip(MwdNames, MwdUnits);
    assert |zc| == 2 && zc[0] == ("TVD", 0) && zc[1] == ("GR", 1);
    assert |zu| == 2 && zu[0] == ("TVD", "ft") && zu[1] == ("GR", "API");
  }

  /** The MWD source starts at row 203 and maps TVD and GR. */
  lemma MwdMapping()
    ensures SpecificAttrMapping(MwdPath) == Ok(AttrMapping(203, [("TVD", 0), ("GR", 1)],
                                                           [("TVD", "ft"), ("GR", "API")]))
  {
    MwdLists();
    ZipMappingDistinct(MwdNames, MwdColumns, MwdUnits);
  }

  /** `[float(row[c]) for c in cols]` on one tokenised line, with the line's index for errors;
      the first failing column, in mapping order, raises. */
  function ParseRow(line: seq<Token>, cols: seq<nat>, rowIdx: nat): (r: Result<Row, ReadError>)
    ensures r.Ok? <==> forall k | 0 <= k < |cols| :: cols[k] < |line| && line[cols[k]].Number?
    ensures r.Ok? ==> |r.value| == |cols| &&
                      forall k | 0 <= k < |cols| :: r.value[k] == line[cols[k]].value
  {
    if cols == [] then Ok([])
    else if cols[0] >= |line| then Err(MissingColumn(rowIdx, cols[0]))
    else if line[cols[0]].Word? then Err(NotANumber(rowIdx, cols[0]))
    else
      match ParseRow(line, cols[1..], rowIdx)
      case Err(e) => Err(e)
      case Ok(rest) =>
        assert forall k | 0 < k < |cols| :: cols[1..][k - 1] == cols[k];
        Ok([line[cols[0]].value] + rest)
  }

  /** The readings of every line from `rowStart` on; the first line that fails to parse
      raises. */
  function ReadLines(lines: seq<seq<Token>>, rowStart: nat, cols: seq<nat>): (r: Result<Table, ReadError>)
    ensures r.Ok? <==> forall k | rowStart <= k < |lines| :: ParseRow(lines[k], cols, k).Ok?
    ensures r.Ok? ==> |r.value| == (if rowStart <= |lines| then |lines| - rowStart else 0)
    ensures r.Ok? ==> forall k | 0 <= k < |r.value| ::
                        r.value[k] == ParseRow(lines[rowStart + k], cols, rowStart + k).value
    ensures r.Ok? ==> Rectangular(r.value, |cols|)
  {
    if |lines| <= rowStart then Ok([])
    else
      var init := lines[..|lines| - 1];
      assert forall k | 0 <= k < |init| :: init[k] == lines[k];
      match ReadLines(init, rowStart, cols)
      case Err(e) => Err(e)
      case Ok(t) =>
        match ParseRow(lines[|lines| - 1], cols, |lines| - 1)
        case Err(e) => Err(e)
        case Ok(row) => Ok(t + [row])
  }

  /** The reading loop: one parsed row per line from the offset on. */
  method ReadLogValues(lines: seq<seq<Token>>, rowStart: nat, cols: seq<nat>)
    returns (r: Result<Table, ReadError>)
    ensures r == ReadLines(lines, rowStart, cols)
  {
    var values: Table := [];
    var rowIdx := 0;
    while rowIdx < |lines|
      invariant 0 <= rowIdx <= |lines|
      invariant ReadLines(lines[..rowIdx], rowStart, cols) == Ok(values)
    {
      assert lines[..rowIdx + 1][..rowIdx] == lines[..rowIdx];
      if rowIdx >= rowStart {
        var row := ParseRow(lines[rowIdx], cols, rowIdx);
        if row.Err? {
          assert ReadLines(lines[..rowIdx + 1], rowStart, cols) == Err(row.error);
          ReadLinesPrefixError(lines, rowStart, cols, rowIdx + 1);
          return Err(row.error);
        }
        values := values + [row.value];
      }
      rowIdx := rowIdx + 1;
    }
    assert lines[..rowIdx] == lines;
    r := Ok(values);
  }

  /** Once a prefix fails, the whole input fails with the same error. */
  lemma {:induction false} ReadLinesPrefixError(lines: seq<seq<Token>>, rowStart: nat, cols: seq<nat>, n: nat)
    requires n <= |lines| && ReadLines(lines[..n], rowStart, cols).Err?
    ensures ReadLines(lines, rowStart, cols) == ReadLines(lines[..n], rowStart, cols)
    decreases |lines| - n
  {
    if n < |lines| {
      assert lines[..n + 1][..n] == lines[..n];
      ReadLinesPrefixError(lines, rowStart, cols, n + 1);
    } else {
      assert lines[..n] == lines;
    }
  }

  predicate AllPositive(row: Row) {
    forall k | 0 <= k < |row| :: row[k] > 0.0
  }

  /** `logs_values[(logs_values > 0).all(axis=1)]` */
  function FilterPositive(t: Table): (r: Table)
    ensures forall i | 0 <= i < |r| :: AllPositive(r[i]) && r[i] in t
    ensures forall i | 0 <= i < |t| :: AllPositive(t[i]) ==> t[i] in r
  {
    Filter(t, AllPositive)
  }

  /** The filter kept rows are the rows that pass, in their original order: the filter of a
      concatenation is the concatenation of the filters. */
  lemma FilterPositiveKeepsOrder(a: Table, b: Table)
    ensures FilterPositive(a + b) == FilterPositive(a) + FilterPositive(b)
  {
    FilterConcat(a, b, AllPositive);
  }

  /** Filtering twice is filtering once. */
  lemma FilterPositiveIdempotent(t: Table)
    ensures FilterPositive(FilterPositive(t)) == FilterPositive(t)
  {
    FilterIdempotent(t, AllPositive);
  }

  predicate Distinct(keys: seq<string>) {
    forall i, j | 0 <= i < j < |keys| :: keys[i] != keys[j]
  }

  /** One curve per key: the table's column at the key's position. */
  function CurveDict(keys: seq<string>, t: Table): (d: Dict<Curve>)
    requires forall i | 0 <= i < |t| :: |keys| <= |t[i]|
    ensures Keys(d) == keys
    ensures forall j | 0 <= j < |keys| :: d[j].1 == Column(t, j) && |d[j].1| == |t|
  {
    seq(|keys|, j requires 0 <= j < |keys| => (keys[j], Column(t, j)))
  }

  /** The dict fill loop: assigns each key its column, in key order. */
  method FillReadingDict(keys: seq<string>, t: Table) returns (d: Dict<Curve>)
    requires Distinct(keys) && Rectangular(t, |keys|)
    ensures d == CurveDict(keys, t)
  {
    d := [];
    var j := 0;
    while j < |keys|
      invariant 0 <= j <= |keys|
      invariant d == CurveDict(keys[..j], t)
    {
      assert keys[j] !in Keys(d);
      d := Put(d, keys[j], Column(t, j));
      j := j + 1;
    }
    assert keys[..j] == keys;
  }

  /** `get_log_reading_dict` on a tokenised source: the curves and the table of readings. */
  function LogReading(path: string, lines: seq<seq<Token>>, filternull: bool): (r: Result<(Dict<Curve>, Table), ReadError>)
  {
    match SpecificAttrMapping(path)
    case Err(e) => Err(e)
    case Ok(m) =>
      match ReadLines(lines, m.rowStart, Values(m.columns))
      case Err(e) => Err(e)
      case Ok(t) =>
        if t == [] then Err(NoReadings)
        else
          var kept := if filternull then FilterPositive(t) else t;
          Ok((CurveDict(Keys(m.columns), kept), kept))
  }

  /** `get_log_reading_dict` */
  method GetLogReadingDict(path: string, lines: seq<seq<Token>>, filternull: bool)
    returns (r: Result<(Dict<Curve>, Table), ReadError>)
    ensures r == LogReading(path, lines, filternull)
  {
    var m := GetSpecificAttrMapping(path);
    if m.Err? {
      return Err(m.error);
    }
    var mapping := m.value;
    var values := ReadLogValues(lines, mapping.rowStart, Values(mapping.columns));
    if values.Err? {
      return Err(values.error);
    }
    var t := values.value;
    if t == [] {
      return Err(NoReadings);
    }
    if filternull {
      t := FilterPositive(t);
    }
    DistinctKeysOfMapping(path);
    var d := FillReadingDict(Keys(mapping.columns), t);
    r := Ok((d, t));
  }

  /** The curve names of a known source are distinct. */
  lemma DistinctKeysOfMapping(path: string)
    requires SpecificAttrMapping(path).Ok?
    ensures Distinct(Keys(SpecificAttrMapping(path).value.columns))
  {
  }

  /** `get_filtered_log_reading_dict`: reads with the default filter, filters the table again
      and refills every curve from it. */
  method GetFilteredLogReadingDict(path: string, lines: seq<seq<Token>>)
    returns (r: Result<(Dict<Curve>, Table), ReadError>)
    ensures r == LogReading(path, lines, true)
  {
    var read := GetLogReadingDict(path, lines, true);
    if read.Err? {
      return read;
    }
    var (d, t) := read.value;
    var kept := FilterPositive(t);
    FilterPositiveIdempotent(SourceRows(path, lines));
    assert kept == t;
    DistinctKeysOfMapping(path);
    var keys := Keys(d);
    assert d == CurveDict(keys, t) && DistinctKeys(d);
    var j := 0;
    while j < |keys|
      invariant 0 <= j <= |keys|
      invariant d == CurveDict(keys, t)
    {
      PutPresent(d, j);
      d := Put(d, keys[j], Column(kept, j));
      j := j + 1;
    }
    r := Ok((d, kept));
  }

  /** The rows a known source yields before filtering. */
  function SourceRows(path: string, lines: seq<seq<Token>>): Table
    requires SpecificAttrMapping(path).Ok?
  {
    var m := SpecificAttrMapping(path).value;
    var rows := ReadLines(lines, m.rowStart, Values(m.columns));
    if rows.Ok? then rows.value else []
  }

  /** Each curve of a reading is the table's column at that curve's position in mapping order,
      and has as many samples as the table has rows; with the filter on, a row is in the table
      iff it was read and all its readings are strictly positive. */
  lemma LogReadingCurves(path: string, lines: seq<seq<Token>>, filternull: bool)
    requires LogReading(path, lines, filternull).Ok?
    ensures var (d, t) := LogReading(path, lines, filternull).value;
            var m := SpecificAttrMapping(path).value;
            && Keys(d) == Keys(m.columns)
            && (forall j | 0 <= j < |d| :: d[j].1 == Column(t, j) && |d[j].1| == |t|)
            && (filternull ==> t == FilterPositive(SourceRows(path, lines)))
            && (!filternull ==> t == SourceRows(path, lines) && t != [])
  {
  }
}
