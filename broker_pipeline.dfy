/** The multi-broker dashboard: rename the broker's columns to the common names, build
    a `Time` column (joining `Date` and `Clock` for ThinkorSwim), drop the rows whose
    time does not parse, order the rest by time, add the running P&L, and summarise
    the P&L per symbol. */
module BrokerPipeline {
  import opened Cells
  import opened RunningSums

  // ---------------------------------------------------------------------------
  // Column mapping

  /** The rename dictionary of each broker. */
  function Mapping(b: Broker): map<string, string>
  {
    match b
    case Webull =>
      map["Symbol" := "Symbol", "Side" := "Side", "Quantity" := "Quantity", "Price" := "Price",
          "Realized PnL" := "PnL", "Filled Time" := "Time", "Time" := "Time"]
    case Robinhood =>
      map["Ticker" := "Symbol", "Action" := "Side", "Shares" := "Quantity", "Price" := "Price",
          "Date" := "Time", "Total Gain/Loss" := "PnL"]
    case ThinkorSwim =>
      map["Symbol" := "Symbol", "Side" := "Side", "Quantity" := "Quantity", "Price" := "Price",
          "Date" := "Date", "Time" := "Clock", "P/L Close" := "PnL"]
  }

  /** `rename(columns=…)` on one label: a label the dictionary names is replaced,
      any other is kept. */
  function Renamed(b: Broker, name: string): string
  {
    if name in Mapping(b) then Mapping(b)[name] else name
  }

  function Rename(b: Broker, cols: seq<string>): (r: seq<string>)
    ensures |r| == |cols| && forall i :: 0 <= i < |cols| ==> r[i] == Renamed(b, cols[i])
  {
    seq(|cols|, i requires 0 <= i < |cols| => Renamed(b, cols[i]))
  }

  lemma RenamedIn(b: Broker, cols: seq<string>, name: string)
    ensures name in Rename(b, cols) <==> exists c :: c in cols && Renamed(b, c) == name
  {
    var r := Rename(b, cols);
    if name in r {
      var i :| 0 <= i < |r| && r[i] == name;
      assert cols[i] in cols;
    }
    if c :| c in cols && Renamed(b, c) == name {
      var i :| 0 <= i < |cols| && cols[i] == c;
      assert r[i] == name;
    }
  }

  /** Whether the mapped frame ends up with a `Time` column: renamed into place, or,
      for ThinkorSwim, built from `Date` and `Clock`. */
  predicate TimeAvailable(b: Broker, cols: seq<string>)
  {
    var r := Rename(b, cols);
    "Time" in r || (b == ThinkorSwim && "Date" in r && "Clock" in r)
  }

  /** Which uploads get a `Time` column. Webull: a `Filled Time` or a `Time` column.
      Robinhood: a `Date` column, or a `Time` column that it keeps as it is.
      ThinkorSwim: a `Date` column together with a `Time` (renamed `Clock`) or a
      `Clock` column; no ThinkorSwim label is ever renamed to `Time`. */
  lemma TimeColumnSources(b: Broker, cols: seq<string>)
    ensures b == Webull ==> (TimeAvailable(b, cols) <==> "Filled Time" in cols || "Time" in cols)
    ensures b == Robinhood ==> (TimeAvailable(b, cols) <==> "Date" in cols || "Time" in cols)
    ensures b == ThinkorSwim ==> "Time" !in Rename(b, cols)
    ensures b == ThinkorSwim ==> (TimeAvailable(b, cols) <==> "Date" in cols && ("Time" in cols || "Clock" in cols))
  {
    RenamedIn(b, cols, "Time");
    RenamedIn(b, cols, "Date");
    RenamedIn(b, cols, "Clock");
    if b == Webull {
      if "Filled Time" in cols { assert Renamed(b, "Filled Time") == "Time"; }
      if "Time" in cols { assert Renamed(b, "Time") == "Time"; }
    } else if b == Robinhood {
      if "Date" in cols { assert Renamed(b, "Date") == "Time"; }
      if "Time" in cols { assert Renamed(b, "Time") == "Time"; }
    } else {
      if "Date" in cols { assert Renamed(b, "Date") == "Date"; }
      if "Time" in cols { assert Renamed(b, "Time") == "Clock"; }
      if "Clock" in cols { assert Renamed(b, "Clock") == "Clock"; }
    }
  }

  /** A Webull export with both `Filled Time` and `Time` gets two columns called
      `Time`, so the time conversion cannot pick one and the upload fails. */
  lemma WebullDuplicateTime(cols: seq<string>)
    requires "Filled Time" in cols && "Time" in cols
    ensures ColumnIndex(Rename(Webull, cols), "Time") == Err(AmbiguousColumn("Time"))
  {
    var r := Rename(Webull, cols);
    var i :| 0 <= i < |cols| && cols[i] == "Filled Time";
    var k :| 0 <= k < |cols| && cols[k] == "Time";
    assert r[i] == "Time" && r[k] == "Time" && i != k;
  }

  // ---------------------------------------------------------------------------
  // The ThinkorSwim time column

  /** The row with its cells up to `n`, filled with NaN where it is short. */
  function Pad(row: Row, n: nat): (r: Row)
    ensures |r| == n && forall j :: 0 <= j < n ==> r[j] == At(row, j)
  {
    seq(n, j requires 0 <= j < n => At(row, j))
  }

  /** `to_datetime(Date + " " + Clock, errors="coerce")` on one row: the two texts
      joined by a space and parsed; NaN when either part is NaN or the text does not
      parse. */
  function JoinedTime(p: Parsers, date: Cell, clock: Cell): Cell
  {
    if date.Text? && clock.Text? then
      match p.datetime(Text(date.s + " " + clock.s))
      case Some(t) => Stamp(t)
      case None => Missing
    else Missing
  }

  /** A row where `Date + " "` gives text but the `Clock` cell is present and not text:
      pandas adds object columns only where both sides are present, so this is the one
      place where the second addition raises. */
  predicate ClockClash(rows: seq<Row>, d: nat, c: nat)
  {
    exists i :: 0 <= i < |rows| && At(rows[i], d).Text? && !(At(rows[i], c).Text? || At(rows[i], c).Missing?)
  }

  /** The ThinkorSwim step: a new last column `Time` built from `Date` and `Clock`.
      `Date + " "` fails unless `Date` is a text column; adding `Clock` then fails only
      on a row that pairs a date with a clock cell that is a number or a timestamp. */
  function WithTosTime(p: Parsers, t: Table): (r: Result<Table>)
    ensures r.Ok? ==> ColumnIndex(t.columns, "Date").Ok? && ColumnIndex(t.columns, "Clock").Ok?
    ensures r.Ok? ==> r.value.columns == t.columns + ["Time"] && |r.value.rows| == |t.rows|
    ensures r.Ok? ==> forall i, j :: 0 <= i < |t.rows| && 0 <= j < |t.columns| ==> At(r.value.rows[i], j) == At(t.rows[i], j)
    ensures r.Ok? ==> forall i :: 0 <= i < |t.rows| ==>
      At(r.value.rows[i], |t.columns|)
      == JoinedTime(p, At(t.rows[i], ColumnIndex(t.columns, "Date").value), At(t.rows[i], ColumnIndex(t.columns, "Clock").value))
    ensures ColumnIndex(t.columns, "Date").Ok? && !IsTextColumn(t.rows, ColumnIndex(t.columns, "Date").value) ==> r == Err(NotText("Date"))
    ensures (ColumnIndex(t.columns, "Date").Ok? && IsTextColumn(t.rows, ColumnIndex(t.columns, "Date").value)
             && ColumnIndex(t.columns, "Clock").Ok?) ==>
      (r.Err? <==> ClockClash(t.rows, ColumnIndex(t.columns, "Date").value, ColumnIndex(t.columns, "Clock").value))
      && (r.Err? ==> r.failure == NotText("Clock"))
  {
    var d :- ColumnIndex(t.columns, "Date");
    if !IsTextColumn(t.rows, d) then Err(NotText("Date"))
    else
      var c :- ColumnIndex(t.columns, "Clock");
      if ClockClash(t.rows, d, c) then Err(NotText("Clock"))
      else
        var n := |t.columns|;
        Ok(Table(t.columns + ["Time"],
                 seq(|t.rows|, i requires 0 <= i < |t.rows| => Pad(t.rows[i], n) + [JoinedTime(p, At(t.rows[i], d), At(t.rows[i], c))])))
  }

  /** A `Clock` column with no values does not make the join fail: every joined time
      is NaN. */
  lemma EmptyClockGivesNoTimes(p: Parsers, t: Table)
    requires ColumnIndex(t.columns, "Date").Ok? && IsTextColumn(t.rows, ColumnIndex(t.columns, "Date").value)
    requires ColumnIndex(t.columns, "Clock").Ok?
    requires forall i :: 0 <= i < |t.rows| ==> At(t.rows[i], ColumnIndex(t.columns, "Clock").value).Missing?
    ensures WithTosTime(p, t).Ok?
    ensures forall i :: 0 <= i < |t.rows| ==> At(WithTosTime(p, t).value.rows[i], |t.columns|) == Missing
  {
  }

  /** A date paired with a clock cell holding a number fails; the same date with a
      NaN clock cell does not. */
  lemma ClockClashExamples(p: Parsers)
    ensures WithTosTime(p, Table(["Date", "Clock"], [[Text("01/02/2024"), Number(9.0)]])) == Err(NotText("Clock"))
    ensures WithTosTime(p, Table(["Date", "Clock"], [[Text("01/02/2024"), Missing]]))
         == Ok(Table(["Date", "Clock", "Time"], [[Text("01/02/2024"), Missing, Missing]]))
  {
    var cols := ["Date", "Clock"];
    assert ColumnIndex(cols, "Date") == Ok(0) && ColumnIndex(cols, "Clock") == Ok(1);
    var bad := [[Text("01/02/2024"), Number(9.0)]];
    assert At(bad[0], 0).Text? && At(bad[0], 1).Number?;
    assert ClockClash(bad, 0, 1);
    var good := [[Text("01/02/2024"), Missing]];
    assert IsTextColumn(good, 0) by { assert good[0] in good && At(good[0], 0).Text?; }
    assert !ClockClash(good, 0, 1);
    var r := WithTosTime(p, Table(cols, good)).value;
    var pad := Pad(good[0], 2);
    assert pad[0] == Text("01/02/2024") && pad[1] == Missing;
    assert pad == [Text("01/02/2024"), Missing];
    assert r.rows[0] == pad + [Missing];
    assert |r.rows| == |good| == 1;
    assert r.rows[0] == [Text("01/02/2024"), Missing, Missing];
    assert r.rows == [[Text("01/02/2024"), Missing, Missing]];
    assert r.columns == ["Date", "Clock", "Time"];
  }

  /** The frame after the broker's renaming and, for ThinkorSwim, the joined time. */
  function Mapped(p: Parsers, b: Broker, t: Table): (r: Result<Table>)
    ensures b != ThinkorSwim ==> r == Ok(Table(Rename(b, t.columns), t.rows))
    ensures r.Ok? ==>
      |r.value.rows| == |t.rows| && |t.columns| <= |r.value.columns| && r.value.columns[..|t.columns|] == Rename(b, t.columns)
    ensures r.Ok? ==> forall i, j :: 0 <= i < |t.rows| && 0 <= j < |t.columns| ==> At(r.value.rows[i], j) == At(t.rows[i], j)
    ensures r.Err? ==> b == ThinkorSwim
  {
    var cols := Rename(b, t.columns);
    if b == ThinkorSwim && "Date" in cols && "Clock" in cols then WithTosTime(p, Table(cols, t.rows))
    else Ok(Table(cols, t.rows))
  }

  /** The mapped frame has a `Time` column exactly when the upload has one of the
      columns the broker's time comes from. */
  lemma MappedTimeColumn(p: Parsers, b: Broker, t: Table)
    requires Mapped(p, b, t).Ok?
    ensures "Time" in Mapped(p, b, t).value.columns <==> TimeAvailable(b, t.columns)
  {
  }

  // ---------------------------------------------------------------------------
  // Parsing, dropping and ordering by time

  /** A row together with its parsed time. */
  datatype Timed = Timed(row: Row, time: Timestamp)

  function HasTime(p: Parsers, j: nat): Row -> bool
  {
    r => ToDatetime(p, At(r, j)).Some?
  }

  /** `to_datetime(errors="coerce")` then `dropna(subset=["Time"])`: the rows whose
      time parses, each with its time, in file order. */
  function ParsedRows(p: Parsers, rows: seq<Row>, j: nat): (r: seq<Timed>)
    ensures |r| <= |rows|
    ensures forall k :: 0 <= k < |r| ==> ToDatetime(p, At(r[k].row, j)) == Some(r[k].time)
  {
    if rows == [] then []
    else
      (match ToDatetime(p, At(rows[0], j))
       case Some(t) => [Timed(rows[0], t)]
       case None => []) + ParsedRows(p, rows[1..], j)
  }

  /** The parsed rows are the rows the time mask keeps, each paired with its time. */
  lemma {:induction false} ParsedRowsAreSelected(p: Parsers, rows: seq<Row>, j: nat)
    ensures |ParsedRows(p, rows, j)| == |Select(rows, HasTime(p, j))|
    ensures forall k :: 0 <= k < |ParsedRows(p, rows, j)| ==>
      ParsedRows(p, rows, j)[k].row == Select(rows, HasTime(p, j))[k]
      && Some(ParsedRows(p, rows, j)[k].time) == ToDatetime(p, At(Select(rows, HasTime(p, j))[k], j))
  {
    if rows != [] {
      ParsedRowsAreSelected(p, rows[1..], j);
    }
  }

  function Seconds(x: Timed): int
  {
    x.time.seconds
  }

  predicate SortedByTime(s: seq<Timed>)
  {
    forall i, j :: 0 <= i < j < |s| ==> Seconds(s[i]) <= Seconds(s[j])
  }

  function Insert(x: Timed, s: seq<Timed>): seq<Timed>
  {
    if s == [] then [x]
    else if Seconds(x) <= Seconds(s[0]) then [x] + s
    else [s[0]] + Insert(x, s[1..])
  }

  /** `sort_values("Time")`. */
  function SortByTime(s: seq<Timed>): seq<Timed>
  {
    if s == [] then [] else Insert(s[0], SortByTime(s[1..]))
  }

  lemma {:induction false} InsertSorted(x: Timed, s: seq<Timed>)
    requires SortedByTime(s)
    ensures SortedByTime(Insert(x, s))
    ensures Insert(x, s)[0] == x || (s != [] && Insert(x, s)[0] == s[0])
  {
    if s != [] && Seconds(x) > Seconds(s[0]) {
      var rest := s[1..];
      InsertSorted(x, rest);
      var ins := Insert(x, rest);
      assert Seconds(s[0]) <= Seconds(ins[0]);
      var r := [s[0]] + ins;
      forall a, c | 0 <= a < c < |r| ensures Seconds(r[a]) <= Seconds(r[c]) {
        assert r[c] == ins[c - 1];
        if a > 0 {
          assert r[a] == ins[a - 1];
        } else if c > 1 {
          assert Seconds(ins[0]) <= Seconds(ins[c - 1]);
        }
      }
    }
  }

  lemma {:induction false} InsertMultiset(x: Timed, s: seq<Timed>)
    ensures multiset(Insert(x, s)) == multiset(s) + multiset{x}
  {
    if s != [] && Seconds(x) > Seconds(s[0]) {
      InsertMultiset(x, s[1..]);
      assert s == [s[0]] + s[1..];
    }
  }

  /** Sorting puts the rows in time order and neither loses nor duplicates one. */
  lemma {:induction false} SortByTimeSpec(s: seq<Timed>)
    ensures SortedByTime(SortByTime(s))
    ensures multiset(SortByTime(s)) == multiset(s)
    ensures |SortByTime(s)| == |s|
  {
    if s != [] {
      SortByTimeSpec(s[1..]);
      InsertSorted(s[0], SortByTime(s[1..]));
      InsertMultiset(s[0], SortByTime(s[1..]));
      assert s == [s[0]] + s[1..];
      assert |multiset(SortByTime(s))| == |multiset(s)|;
    }
  }

  // ---------------------------------------------------------------------------
  // Running P&L and the symbol summary

  /** One P&L cell: a number, NaN, or a failure for text (see README, Left out). */
  function PnLOf(c: Cell): (r: Result<Option<real>>)
    ensures r.Ok? <==> c.Number? || c.Missing?
    ensures r.Ok? ==> (r.value.Some? <==> c.Number?) && (c.Number? ==> r.value.value == c.x)
  {
    match c
    case Number(x) => Ok(Some(x))
    case Missing => Ok(None)
    case _ => Err(TypeMismatch("PnL"))
  }

  /** Reads one ordered row's P&L cell. */
  function PnLReader(k: nat): Timed -> Result<Option<real>>
  {
    (t: Timed) => PnLOf(At(t.row, k))
  }

  function Symbols(s: seq<Timed>, j: nat): (r: seq<Cell>)
    ensures |r| == |s| && forall i :: 0 <= i < |s| ==> r[i] == At(s[i].row, j)
  {
    seq(|s|, i requires 0 <= i < |s| => At(s[i].row, j))
  }

  /** One row of the chart data: the mapped row, its parsed time, its P&L and the
      running P&L. */
  datatype ReportRow = ReportRow(row: Row, time: Timestamp, pnl: Option<real>, cumulative: Option<real>)

  /** What the dashboard shows: a warning that no time column was found, or the
      ordered rows and the per-symbol summary (`Symbol`, `Trades`, `TotalPnL`). */
  datatype Analysis =
    | NoTimeColumn
    | Charted(columns: seq<string>, rows: seq<ReportRow>, summary: map<Cell, Totals>)

  /** The P&L column of the chart rows. */
  function PnLs(rows: seq<ReportRow>): (r: seq<Option<real>>)
    ensures |r| == |rows| && forall i :: 0 <= i < |rows| ==> r[i] == rows[i].pnl
  {
    seq(|rows|, i requires 0 <= i < |rows| => rows[i].pnl)
  }

  function Report(s: seq<Timed>, pnls: seq<Option<real>>): (r: seq<ReportRow>)
    requires |pnls| == |s|
    ensures |r| == |s|
    ensures forall i :: 0 <= i < |s| ==> r[i].row == s[i].row && r[i].time == s[i].time && r[i].pnl == pnls[i]
  {
    var cumulative := Cumsum(pnls);
    seq(|s|, i requires 0 <= i < |s| => ReportRow(s[i].row, s[i].time, pnls[i], cumulative[i]))
  }

  /** The ordered rows: those whose time parses, sorted by time. */
  function OrderedRows(p: Parsers, m: Table): seq<Timed>
    requires ColumnIndex(m.columns, "Time").Ok?
  {
    SortByTime(ParsedRows(p, m.rows, ColumnIndex(m.columns, "Time").value))
  }

  /** Everything after the mapping: the time conversion, the drop of unparsed times,
      the sort, the running P&L and the per-symbol summary. A chart needs a single
      `Time`, `PnL` and `Symbol` column and a numeric P&L. */
  function Chart(p: Parsers, m: Table): (r: Result<Analysis>)
    ensures r == Ok(NoTimeColumn) <==> "Time" !in m.columns
    ensures r.Ok? && r.value.Charted? ==>
      && ColumnIndex(m.columns, "Time").Ok? && ColumnIndex(m.columns, "PnL").Ok? && ColumnIndex(m.columns, "Symbol").Ok?
      && MapAll(OrderedRows(p, m), PnLReader(ColumnIndex(m.columns, "PnL").value)).Ok?
  {
    if "Time" !in m.columns then Ok(NoTimeColumn)
    else
      var j :- ColumnIndex(m.columns, "Time");
      var sorted := OrderedRows(p, m);
      var k :- ColumnIndex(m.columns, "PnL");
      var pnls :- MapAll(sorted, PnLReader(k));
      var s :- ColumnIndex(m.columns, "Symbol");
      Ok(Charted(m.columns, Report(sorted, pnls), GroupTotals(Symbols(sorted, s), pnls)))
  }

  /** The uploaded table through the broker mapping and then the charting steps. */
  function Analyse(p: Parsers, b: Broker, t: Table): (r: Result<Analysis>)
    ensures Mapped(p, b, t).Err? ==> r == Err(Mapped(p, b, t).failure)
    ensures r.Ok? ==> (r.value.NoTimeColumn? <==> !TimeAvailable(b, t.columns))
  {
    var m :- Mapped(p, b, t);
    MappedTimeColumn(p, b, t);
    Chart(p, m)
  }

  // ---------------------------------------------------------------------------
  // What the dashboard promises

  /** The warning is shown exactly when the upload has none of the columns the
      broker's time comes from (and the ThinkorSwim join did not fail). */
  lemma WarningIffNoTime(p: Parsers, b: Broker, t: Table)
    ensures Analyse(p, b, t) == Ok(NoTimeColumn) <==> Mapped(p, b, t).Ok? && !TimeAvailable(b, t.columns)
  {
    if Mapped(p, b, t).Ok? {
      MappedTimeColumn(p, b, t);
    }
  }

  /** How a chart is made from the mapped frame. */
  lemma ChartedShape(p: Parsers, m: Table)
    requires Chart(p, m).Ok? && Chart(p, m).value.Charted?
    ensures Chart(p, m).value.rows
         == Report(OrderedRows(p, m), MapAll(OrderedRows(p, m), PnLReader(ColumnIndex(m.columns, "PnL").value)).value)
    ensures Chart(p, m).value.summary
         == GroupTotals(Symbols(OrderedRows(p, m), ColumnIndex(m.columns, "Symbol").value),
                        MapAll(OrderedRows(p, m), PnLReader(ColumnIndex(m.columns, "PnL").value)).value)
  {
  }

  /** The chart rows are the rows of the mapped frame whose time parses, each once,
      in time order; each carries the time its `Time` cell parses to. */
  lemma ChartedRowsOrdered(p: Parsers, m: Table)
    requires Chart(p, m).Ok? && Chart(p, m).value.Charted?
    ensures var j := ColumnIndex(m.columns, "Time").value;
      var out := Chart(p, m).value.rows;
      && |out| == |ParsedRows(p, m.rows, j)|
      && (forall a, c :: 0 <= a < c < |out| ==> out[a].time.seconds <= out[c].time.seconds)
      && multiset(seq(|out|, i requires 0 <= i < |out| => Timed(out[i].row, out[i].time))) == multiset(ParsedRows(p, m.rows, j))
      && (forall i :: 0 <= i < |out| ==> ToDatetime(p, At(out[i].row, j)) == Some(out[i].time))
  {
    ChartedShape(p, m);
    var j := ColumnIndex(m.columns, "Time").value;
    var sorted := OrderedRows(p, m);
    ReportInTimeOrder(p, m.rows, j, MapAll(sorted, PnLReader(ColumnIndex(m.columns, "PnL").value)).value);
  }

  /** `ChartedRowsOrdered` for the report over the sorted parsed rows of any frame. */
  lemma ReportInTimeOrder(p: Parsers, rows: seq<Row>, j: nat, pnls: seq<Option<real>>)
    requires |pnls| == |SortByTime(ParsedRows(p, rows, j))|
    ensures var out := Report(SortByTime(ParsedRows(p, rows, j)), pnls);
      && |out| == |ParsedRows(p, rows, j)|
      && (forall a, c :: 0 <= a < c < |out| ==> out[a].time.seconds <= out[c].time.seconds)
      && multiset(seq(|out|, i requires 0 <= i < |out| => Timed(out[i].row, out[i].time))) == multiset(ParsedRows(p, rows, j))
      && (forall i :: 0 <= i < |out| ==> ToDatetime(p, At(out[i].row, j)) == Some(out[i].time))
  {
    var parsed := ParsedRows(p, rows, j);
    var sorted := SortByTime(parsed);
    SortByTimeSpec(parsed);
    var out := Report(sorted, pnls);
    assert seq(|out|, i requires 0 <= i < |out| => Timed(out[i].row, out[i].time)) == sorted;
    ParsedRowsKept(p, rows, j);
    forall i | 0 <= i < |out| ensures ToDatetime(p, At(out[i].row, j)) == Some(out[i].time) {
      assert sorted[i] in multiset(parsed);
    }
  }

  /** A row of the mapped frame is charted exactly when its time parses. */
  lemma ParsedRowsKept(p: Parsers, rows: seq<Row>, j: nat)
    ensures forall i :: 0 <= i < |rows| && ToDatetime(p, At(rows[i], j)).Some? ==>
      Timed(rows[i], ToDatetime(p, At(rows[i], j)).value) in ParsedRows(p, rows, j)
    ensures forall x :: x in ParsedRows(p, rows, j) ==> x.row in rows && ToDatetime(p, At(x.row, j)) == Some(x.time)
  {
    ParsedRowsAreSelected(p, rows, j);
    var sel := Select(rows, HasTime(p, j));
    SelectIsSubsequence(rows, HasTime(p, j));
    var ps := Positions(rows, HasTime(p, j));
    var parsed := ParsedRows(p, rows, j);
    forall i | 0 <= i < |rows| && ToDatetime(p, At(rows[i], j)).Some?
      ensures Timed(rows[i], ToDatetime(p, At(rows[i], j)).value) in parsed
    {
      assert HasTime(p, j)(rows[i]);
      var k :| 0 <= k < |ps| && ps[k] == i;
      assert parsed[k] == Timed(rows[i], ToDatetime(p, At(rows[i], j)).value);
    }
    forall x | x in parsed ensures x.row in rows && ToDatetime(p, At(x.row, j)) == Some(x.time) {
      var k :| 0 <= k < |parsed| && parsed[k] == x;
      assert sel[k] == rows[ps[k]];
    }
  }

  /** The cumulative P&L follows the time order: NaN where the row's P&L is NaN, and
      otherwise the sum of the P&L of that row and of every row before it. */
  lemma CumulativeInTimeOrder(p: Parsers, m: Table)
    requires Chart(p, m).Ok? && Chart(p, m).value.Charted?
    ensures var out := Chart(p, m).value.rows;
      forall i :: 0 <= i < |out| ==>
        (out[i].cumulative.None? <==> out[i].pnl.None?)
        && (out[i].pnl.Some? ==> out[i].cumulative == Some(PresentSum(PnLs(out)[..i + 1])))
  {
    ChartedShape(p, m);
    var pnls := MapAll(OrderedRows(p, m), PnLReader(ColumnIndex(m.columns, "PnL").value)).value;
    var out := Chart(p, m).value.rows;
    assert PnLs(out) == pnls;
  }

  /** The summary has one row per symbol of the charted rows (NaN symbols form no
      group); `Trades` counts that symbol's rows with a P&L and `TotalPnL` adds those
      P&L values. */
  lemma SummaryPerSymbol(p: Parsers, m: Table)
    requires Chart(p, m).Ok? && Chart(p, m).value.Charted?
    ensures var a := Chart(p, m).value;
      var symbols := seq(|a.rows|, i requires 0 <= i < |a.rows| => At(a.rows[i].row, ColumnIndex(m.columns, "Symbol").value));
      var pnls := PnLs(a.rows);
      && (forall s :: s in a.summary <==> s in symbols && s != Missing)
      && (forall s :: s in a.summary ==>
            a.summary[s] == Totals(PresentCount(ValuesFor(symbols, pnls, s)), PresentSum(ValuesFor(symbols, pnls, s))))
  {
    ChartedShape(p, m);
    var sorted := OrderedRows(p, m);
    var pnls := MapAll(sorted, PnLReader(ColumnIndex(m.columns, "PnL").value)).value;
    var s := ColumnIndex(m.columns, "Symbol").value;
    var a := Chart(p, m).value;
    assert PnLs(a.rows) == pnls;
    assert seq(|a.rows|, i requires 0 <= i < |a.rows| => At(a.rows[i].row, s)) == Symbols(sorted, s);
    GroupTotalsSpec(Symbols(sorted, s), pnls);
  }

  /** With a single `Time` column but no `PnL` column, the running P&L cannot be
      computed and the upload fails with the missing column. */
  lemma MissingPnLFails(p: Parsers, m: Table)
    requires ColumnIndex(m.columns, "Time").Ok? && "PnL" !in m.columns
    ensures Chart(p, m) == Err(MissingColumn("PnL"))
  {
  }
}
