/** `clean_webull` of the later dashboards, in its two versions side by side: strip
    '@' from every text cell, coerce `Avg Price` and `Filled Time`, keep the Filled
    rows whose required fields are present, and derive the date, hour, hour label,
    weekday and notional `PnL = Avg Price * Filled` of each kept row. Version 5.4
    (edgekit_app_v5.4.py) also requires `Side`, and adds `Ticker` and `Trade ID`;
    version 5 (edgekit_app_v5.py) compares `Status` as text and filters on `Symbol`
    last. */
module WebullCleaning {
  import opened Cells
  import opened HourLabels

  // ---------------------------------------------------------------------------
  // Fields derived from the fill time

  /** The calendar fields of a fill: its date (days since 1970-01-01), its hour of the
      day, the hour's 12-hour label, and the weekday's name. */
  datatype TimeFeatures = TimeFeatures(date: int, hour: int, hourLabel: string, day: string)

  /** Day of the week, Monday = 0; 1970-01-01 was a Thursday. */
  function Weekday(date: int): (w: int)
    ensures 0 <= w < 7
  {
    (date + 3) % 7
  }

  /** 1970-01-01 was a Thursday, and each day is followed by the next weekday, Sunday
      by Monday. */
  lemma WeekdayCycle(date: int)
    ensures Weekday(0) == 3 && DayName(Weekday(0)) == "Thursday"
    ensures Weekday(date + 1) == (Weekday(date) + 1) % 7
    ensures Weekday(date) == 6 <==> Weekday(date + 1) == 0
  {
  }

  /** `day_name()` in English. */
  function DayName(w: int): string
    requires 0 <= w < 7
  {
    ["Monday", "Tuesday", "Wednesday", "Thursday", "Friday", "Saturday", "Sunday"][w]
  }

  /** Lines 19-22: `dt.date`, `dt.hour`, `format_hour_label` of the hour, and
      `dt.day_name()`. The date and hour are those of the whole hour the fill falls in,
      and the label is what `format_hour_label` gives for that hour. */
  function Features(t: Timestamp): (f: TimeFeatures)
    ensures 0 <= f.hour < 24
    ensures f.date * 86400 + f.hour * 3600 <= t.seconds < f.date * 86400 + (f.hour + 1) * 3600
    ensures FormatHourLabel(Some(f.hour as real)) == Ok(f.hourLabel)
    ensures f.day == DayName(Weekday(f.date))
  {
    var date := t.seconds / 86400;
    var hour := (t.seconds % 86400) / 3600;
    assert Truncate(hour as real) == hour;
    TimeFeatures(date, hour, ClockLabel(hour), DayName(Weekday(date)))
  }

  /** The date and hour of a fill are the only ones that fit it. */
  lemma FeaturesUnique(t: Timestamp, date: int, hour: int)
    requires 0 <= hour < 24
    requires date * 86400 + hour * 3600 <= t.seconds < date * 86400 + (hour + 1) * 3600
    ensures Features(t).date == date && Features(t).hour == hour
  {
    var f := Features(t);
    HourSlots(date, hour, f.date, f.hour);
  }

  lemma HourSlots(d1: int, h1: int, d2: int, h2: int)
    requires 0 <= h1 < 24 && 0 <= h2 < 24
    requires d1 * 86400 + h1 * 3600 < d2 * 86400 + (h2 + 1) * 3600
    requires d2 * 86400 + h2 * 3600 < d1 * 86400 + (h1 + 1) * 3600
    ensures d1 == d2 && h1 == h2
  {
    var a := d1 * 24 + h1;
    var b := d2 * 24 + h2;
    assert a * 3600 < (b + 1) * 3600 && b * 3600 < (a + 1) * 3600;
    assert a == b;
  }

  /** The epoch itself and a later fill, worked through: 1970-01-01 00:00 is a Thursday
      at "12 AM", and 2023-11-14 22:13:20 is a Tuesday at "10 PM". */
  lemma FeaturesExamples()
    ensures Features(Timestamp(0)) == TimeFeatures(0, 0, "12 AM", "Thursday")
    ensures Features(Timestamp(1700000000)) == TimeFeatures(19675, 22, "10 PM", "Tuesday")
  {
    ClockLabelCases(0);
    ClockLabelCases(22);
    assert Decimal(10) == "10" by {
      assert Decimal(1) == "1";
    }
  }

  // ---------------------------------------------------------------------------
  // Coercions shared by both versions

  /** Line 16: `pd.to_datetime(format="%m/%d/%Y %H:%M:%S EST", errors="coerce")` on one
      cell; text that does not match the format, and NaN, become NaT. */
  function FilledTime(p: Parsers, c: Cell): (r: Option<Timestamp>)
    ensures c.Missing? || c.Number? ==> r == None
    ensures c.Stamp? ==> r == Some(c.t)
    ensures r.Some? ==> c.Text? || c.Stamp?
  {
    match c
    case Text(s) => p.webullTime(s)
    case Stamp(t) => Some(t)
    case _ => None
  }

  /** Line 23 on one row: `Avg Price * Filled`. A number times NaN is NaN, and a float
      price times text raises TypeError; prices are reals here, so the case of an
      integer-typed price column is not covered. */
  function Notional(avg: Option<real>, filled: Cell): (r: Result<Option<real>>)
    ensures r.Ok? <==> filled.Number? || filled.Missing?
    ensures r.Ok? && r.value.Some? <==> avg.Some? && filled.Number?
    ensures r.Ok? && r.value.Some? ==> r.value.value == avg.value * filled.x
    ensures r.Err? ==> r.failure == TypeMismatch("Filled")
  {
    match filled
    case Number(x) => (match avg case Some(a) => Ok(Some(a * x)) case None => Ok(None))
    case Missing => Ok(None)
    case _ => Err(TypeMismatch("Filled"))
  }

  /** Reads one row's notional value. */
  function NotionalReader(p: Parsers, avg: nat, filled: nat): Row -> Result<Option<real>>
  {
    r => Notional(ToNumeric(p, At(r, avg)), At(r, filled))
  }

  /** A kept row with its coerced and derived fields. */
  datatype Trade = Trade(row: Row, avgPrice: real, filledTime: Timestamp, features: TimeFeatures, pnl: Option<real>)

  /** The coerced `Avg Price` and `Filled Time` of a row and what they give. */
  function MakeTrade(p: Parsers, r: Row, avg: nat, time: nat, pnl: Option<real>): (tr: Trade)
    requires ToNumeric(p, At(r, avg)).Some? && FilledTime(p, At(r, time)).Some?
    ensures tr.row == r && tr.pnl == pnl
    ensures Some(tr.avgPrice) == ToNumeric(p, At(r, avg)) && Some(tr.filledTime) == FilledTime(p, At(r, time))
    ensures tr.features == Features(tr.filledTime)
  {
    var t := FilledTime(p, At(r, time)).value;
    Trade(r, ToNumeric(p, At(r, avg)).value, t, Features(t), pnl)
  }

  // ---------------------------------------------------------------------------
  // Version 5.4 (edgekit_app_v5.4.py, lines 13-27)

  /** The positions of the columns version 5.4 reads before `Ref #`. */
  datatype Columns54 = Columns54(avg: nat, time: nat, status: nat, symbol: nat, side: nat, filled: nat)

  /** Lines 15-18 and 23: the labels read before the product, in the order they are
      read; the first one missing raises KeyError. */
  function Lookups54(cols: seq<string>): Result<Columns54>
  {
    var avg :- ColumnIndex(cols, "Avg Price");
    var time :- ColumnIndex(cols, "Filled Time");
    var status :- ColumnIndex(cols, "Status");
    var symbol :- ColumnIndex(cols, "Symbol");
    var side :- ColumnIndex(cols, "Side");
    var filled :- ColumnIndex(cols, "Filled");
    Ok(Columns54(avg, time, status, symbol, side, filled))
  }

  /** Line 18: `dropna(subset=["Avg Price", "Filled Time", "Symbol", "Side"])` after the
      coercions. */
  function Complete54(p: Parsers, ix: Columns54): Row -> bool
  {
    r => ToNumeric(p, At(r, ix.avg)).Some? && FilledTime(p, At(r, ix.time)).Some?
      && At(r, ix.symbol) != Missing && At(r, ix.side) != Missing
  }

  /** Lines 17-18: the Filled rows, then those with every required field. */
  function Kept54(p: Parsers, rows: seq<Row>, ix: Columns54): seq<Row>
  {
    Select(Select(rows, IsFilled(ix.status)), Complete54(p, ix))
  }

  /** A cleaned row of version 5.4: the trade, `Ticker`, `Trade ID` and the text `Side`. */
  datatype Trade54 = Trade54(trade: Trade, ticker: Cell, tradeId: string, side: string)

  /** Lines 19-26 for the kept rows. */
  function Trades54(p: Parsers, kept: seq<Row>, ix: Columns54, ref: nat, pnls: seq<Option<real>>): (out: seq<Trade54>)
    requires |pnls| == |kept|
    requires forall i :: 0 <= i < |kept| ==> Complete54(p, ix)(kept[i])
    ensures |out| == |kept|
    ensures forall i :: 0 <= i < |kept| ==>
      && Complete54(p, ix)(kept[i])
      && out[i].trade == MakeTrade(p, kept[i], ix.avg, ix.time, pnls[i])
      && out[i].ticker == At(kept[i], ix.symbol)
      && out[i].tradeId == AsText(p, At(kept[i], ref)) + "-" + AsText(p, Stamp(out[i].trade.filledTime))
      && out[i].side == AsText(p, At(kept[i], ix.side))
  {
    seq(|kept|, i requires 0 <= i < |kept| =>
      assert Complete54(p, ix)(kept[i]);
      var tr := MakeTrade(p, kept[i], ix.avg, ix.time, pnls[i]);
      Trade54(tr, At(kept[i], ix.symbol),
              AsText(p, At(kept[i], ref)) + "-" + AsText(p, Stamp(tr.filledTime)),
              AsText(p, At(kept[i], ix.side))))
  }

  /** `clean_webull` of version 5.4. A missing column raises KeyError at the line that
      first names it; the product of line 23 raises on a kept row whose `Filled` is
      text, before `Ref #` is read. */
  function Clean54(p: Parsers, t: Table): (r: Result<seq<Trade54>>)
    ensures r.Ok? ==> Lookups54(t.columns).Ok? && ColumnIndex(t.columns, "Ref #").Ok?
    ensures r.Ok? ==>
      var ix := Lookups54(t.columns).value;
      var kept := Kept54(p, StripRows(t.rows), ix);
      && MapAll(kept, NotionalReader(p, ix.avg, ix.filled)).Ok?
      && (SelectKeeps(Select(StripRows(t.rows), IsFilled(ix.status)), Complete54(p, ix));
          r.value == Trades54(p, kept, ix, ColumnIndex(t.columns, "Ref #").value,
                              MapAll(kept, NotionalReader(p, ix.avg, ix.filled)).value))
  {
    var rows := StripRows(t.rows);
    var ix :- Lookups54(t.columns);
    var kept := Kept54(p, rows, ix);
    var pnls :- MapAll(kept, NotionalReader(p, ix.avg, ix.filled));
    var ref :- ColumnIndex(t.columns, "Ref #");
    SelectKeeps(Select(rows, IsFilled(ix.status)), Complete54(p, ix));
    Ok(Trades54(p, kept, ix, ref, pnls))
  }

  /** Lines 17-18 as one mask. */
  function Keep54(p: Parsers, ix: Columns54): (k: Row -> bool)
    ensures forall r :: k(r) <==>
      && At(r, ix.status) == Text("Filled")
      && ToNumeric(p, At(r, ix.avg)).Some? && FilledTime(p, At(r, ix.time)).Some?
      && At(r, ix.symbol) != Missing && At(r, ix.side) != Missing
  {
    Both(IsFilled(ix.status), Complete54(p, ix))
  }

  function RowOf54(tr: Trade54): Row
  {
    tr.trade.row
  }

  /** The rows behind version 5.4's output are those lines 17-18 keep. */
  lemma Clean54RowsAre(p: Parsers, t: Table)
    requires Clean54(p, t).Ok?
    ensures Map(Clean54(p, t).value, RowOf54) == Select(StripRows(t.rows), Keep54(p, Lookups54(t.columns).value))
  {
    var ix := Lookups54(t.columns).value;
    SelectTwice(StripRows(t.rows), IsFilled(ix.status), Complete54(p, ix));
  }

  /** The cleaned rows are the '@'-stripped input rows that are Filled, whose
      `Avg Price` and `Filled Time` coerce, and whose `Symbol` and `Side` are present:
      all of them, each once, in file order. */
  lemma Clean54Rows(p: Parsers, t: Table)
    requires Clean54(p, t).Ok?
    ensures var ix := Lookups54(t.columns).value;
      var out := Clean54(p, t).value;
      var rows := StripRows(t.rows);
      var ps := Positions(rows, Keep54(p, ix));
      && |out| == |ps|
      && StrictlyIncreasing(ps)
      && (forall k :: 0 <= k < |out| ==> ps[k] < |rows| && out[k].trade.row == rows[ps[k]])
      && (forall i :: 0 <= i < |rows| ==>
            (i in ps <==>
              && At(rows[i], ix.status) == Text("Filled")
              && ToNumeric(p, At(rows[i], ix.avg)).Some?
              && FilledTime(p, At(rows[i], ix.time)).Some?
              && At(rows[i], ix.symbol) != Missing
              && At(rows[i], ix.side) != Missing))
  {
    Clean54RowsAre(p, t);
    ImageRows54(p, Clean54(p, t).value, StripRows(t.rows), Lookups54(t.columns).value);
  }

  /** `Clean54Rows` for any output whose rows are those the masks keep. */
  lemma ImageRows54(p: Parsers, out: seq<Trade54>, rows: seq<Row>, ix: Columns54)
    requires Map(out, RowOf54) == Select(rows, Keep54(p, ix))
    ensures var ps := Positions(rows, Keep54(p, ix));
      && |out| == |ps|
      && StrictlyIncreasing(ps)
      && (forall k :: 0 <= k < |out| ==> ps[k] < |rows| && out[k].trade.row == rows[ps[k]])
      && (forall i :: 0 <= i < |rows| ==>
            (i in ps <==>
              && At(rows[i], ix.status) == Text("Filled")
              && ToNumeric(p, At(rows[i], ix.avg)).Some?
              && FilledTime(p, At(rows[i], ix.time)).Some?
              && At(rows[i], ix.symbol) != Missing
              && At(rows[i], ix.side) != Missing))
  {
    SelectedImage(out, RowOf54, rows, Keep54(p, ix));
    forall i | 0 <= i < |rows|
      ensures Keep54(p, ix)(rows[i]) <==>
        && At(rows[i], ix.status) == Text("Filled")
        && ToNumeric(p, At(rows[i], ix.avg)).Some?
        && FilledTime(p, At(rows[i], ix.time)).Some?
        && At(rows[i], ix.symbol) != Missing
        && At(rows[i], ix.side) != Missing
    {
      assert IsFilled(ix.status)(rows[i]) == (At(rows[i], ix.status) == Text("Filled"));
      assert Complete54(p, ix)(rows[i]) == (ToNumeric(p, At(rows[i], ix.avg)).Some?
        && FilledTime(p, At(rows[i], ix.time)).Some?
        && At(rows[i], ix.symbol) != Missing && At(rows[i], ix.side) != Missing);
    }
  }

  /** Lines 19-26 for one kept row whose product succeeded. */
  lemma Trade54Values(p: Parsers, kept: seq<Row>, ix: Columns54, ref: nat, pnls: seq<Option<real>>, k: nat)
    requires |pnls| == |kept| && k < |kept|
    requires forall i :: 0 <= i < |kept| ==> Complete54(p, ix)(kept[i])
    requires NotionalReader(p, ix.avg, ix.filled)(kept[k]) == Ok(pnls[k])
    ensures var out := Trades54(p, kept, ix, ref, pnls)[k];
      var tr := out.trade;
      && tr.row == kept[k]
      && Some(tr.avgPrice) == ToNumeric(p, At(tr.row, ix.avg))
      && Some(tr.filledTime) == FilledTime(p, At(tr.row, ix.time))
      && Notional(Some(tr.avgPrice), At(tr.row, ix.filled)) == Ok(tr.pnl)
      && out.ticker == At(tr.row, ix.symbol) != Missing
      && out.tradeId == AsText(p, At(tr.row, ref)) + "-" + AsText(p, Stamp(tr.filledTime))
      && out.side == AsText(p, At(tr.row, ix.side))
  {
    assert Complete54(p, ix)(kept[k]);
  }

  /** Each cleaned row's `PnL` is `Avg Price * Filled` (NaN when `Filled` is NaN), its
      `Ticker` is its `Symbol`, its `Trade ID` is `Ref #` and `Filled Time` as text
      joined by "-", and its `Side` is the side as text. */
  lemma Clean54Values(p: Parsers, t: Table, k: nat)
    requires Clean54(p, t).Ok? && k < |Clean54(p, t).value|
    ensures var ix := Lookups54(t.columns).value;
      var out := Clean54(p, t).value[k];
      var tr := out.trade;
      && Some(tr.avgPrice) == ToNumeric(p, At(tr.row, ix.avg))
      && Some(tr.filledTime) == FilledTime(p, At(tr.row, ix.time))
      && Notional(Some(tr.avgPrice), At(tr.row, ix.filled)) == Ok(tr.pnl)
      && out.ticker == At(tr.row, ix.symbol) != Missing
      && out.tradeId == AsText(p, At(tr.row, ColumnIndex(t.columns, "Ref #").value)) + "-" + AsText(p, Stamp(tr.filledTime))
      && out.side == AsText(p, At(tr.row, ix.side))
  {
    var ix := Lookups54(t.columns).value;
    var kept := Kept54(p, StripRows(t.rows), ix);
    var pnls := MapAll(kept, NotionalReader(p, ix.avg, ix.filled)).value;
    SelectKeeps(Select(StripRows(t.rows), IsFilled(ix.status)), Complete54(p, ix));
    Trade54Values(p, kept, ix, ColumnIndex(t.columns, "Ref #").value, pnls, k);
  }

  /** With real (float) prices, a kept row whose `Filled` is text aborts the whole
      file, whatever the other rows hold and whether or not `Ref #` exists. */
  lemma Clean54TextFilledAborts(p: Parsers, t: Table, i: nat)
    requires Lookups54(t.columns).Ok?
    requires i < |t.rows|
    requires Keep54(p, Lookups54(t.columns).value)(StripRows(t.rows)[i])
    requires At(t.rows[i], Lookups54(t.columns).value.filled).Text?
    ensures Clean54(p, t) == Err(TypeMismatch("Filled"))
  {
    var ix := Lookups54(t.columns).value;
    var rows := StripRows(t.rows);
    SelectTwice(rows, IsFilled(ix.status), Complete54(p, ix));
    SelectContains(rows, Keep54(p, ix), i);
    StripRowsSpec(t.rows, i, ix.filled);
    MapAllFails(Kept54(p, rows, ix), NotionalReader(p, ix.avg, ix.filled), rows[i]);
  }

  // ---------------------------------------------------------------------------
  // Version 5 (edgekit_app_v5.py, lines 13-25)

  /** The positions of the columns version 5 reads before `Symbol`. */
  datatype Columns5 = Columns5(avg: nat, time: nat, status: nat, filled: nat)

  /** Lines 15-17 and 23, in the order they are read. */
  function Lookups5(cols: seq<string>): Result<Columns5>
  {
    var avg :- ColumnIndex(cols, "Avg Price");
    var time :- ColumnIndex(cols, "Filled Time");
    var status :- ColumnIndex(cols, "Status");
    var filled :- ColumnIndex(cols, "Filled");
    Ok(Columns5(avg, time, status, filled))
  }

  /** Lines 17-18: `Status` as text is "Filled", and `Avg Price` and `Filled Time`
      coerced. */
  function Mask5(p: Parsers, ix: Columns5): (m: Row -> bool)
    ensures forall r :: m(r) ==>
      !At(r, ix.status).Missing? && ToNumeric(p, At(r, ix.avg)).Some? && FilledTime(p, At(r, ix.time)).Some?
    ensures forall r :: At(r, ix.status) == Text("Filled") ==>
      (m(r) <==> ToNumeric(p, At(r, ix.avg)).Some? && FilledTime(p, At(r, ix.time)).Some?)
  {
    r => AsText(p, At(r, ix.status)) == "Filled"
      && ToNumeric(p, At(r, ix.avg)).Some? && FilledTime(p, At(r, ix.time)).Some?
  }

  /** A cleaned row of version 5: the trade and its `Status` as text. */
  datatype Trade5 = Trade5(trade: Trade, status: string)

  function RowOf5(tr: Trade5): Row
  {
    tr.trade.row
  }

  /** Line 24: `df["Symbol"].notna()`. */
  function HasSymbol(symbol: nat): Row -> bool
  {
    r => At(r, symbol) != Missing
  }

  /** Lines 19-23 for the masked rows. */
  function Trades5(p: Parsers, masked: seq<Row>, ix: Columns5, pnls: seq<Option<real>>): (out: seq<Trade5>)
    requires |pnls| == |masked|
    requires forall i :: 0 <= i < |masked| ==> Mask5(p, ix)(masked[i])
    ensures |out| == |masked|
    ensures forall i :: 0 <= i < |masked| ==>
      && Mask5(p, ix)(masked[i])
      && out[i].trade == MakeTrade(p, masked[i], ix.avg, ix.time, pnls[i])
      && out[i].status == AsText(p, At(masked[i], ix.status))
  {
    seq(|masked|, i requires 0 <= i < |masked| =>
      assert Mask5(p, ix)(masked[i]);
      Trade5(MakeTrade(p, masked[i], ix.avg, ix.time, pnls[i]), AsText(p, At(masked[i], ix.status))))
  }

  /** Lines 19-24 on the masked rows and their products. */
  function Filter5(p: Parsers, masked: seq<Row>, ix: Columns5, pnls: seq<Option<real>>, symbol: nat): seq<Trade5>
    requires |pnls| == |masked|
    requires forall i :: 0 <= i < |masked| ==> Mask5(p, ix)(masked[i])
  {
    Select(Trades5(p, masked, ix, pnls), Compose(HasSymbol(symbol), RowOf5))
  }

  /** `clean_webull` of version 5: the product of line 23 is taken over every masked
      row, so a text `Filled` aborts even on a row line 24 would drop, and `Symbol` is
      only read at line 24. */
  function Clean5(p: Parsers, t: Table): (r: Result<seq<Trade5>>)
    ensures r.Ok? ==> Lookups5(t.columns).Ok? && ColumnIndex(t.columns, "Symbol").Ok?
    ensures r.Ok? ==>
      var ix := Lookups5(t.columns).value;
      var masked := Select(StripRows(t.rows), Mask5(p, ix));
      && MapAll(masked, NotionalReader(p, ix.avg, ix.filled)).Ok?
      && (SelectKeeps(StripRows(t.rows), Mask5(p, ix));
          r.value == Filter5(p, masked, ix, MapAll(masked, NotionalReader(p, ix.avg, ix.filled)).value,
                             ColumnIndex(t.columns, "Symbol").value))
  {
    var rows := StripRows(t.rows);
    var ix :- Lookups5(t.columns);
    var masked := Select(rows, Mask5(p, ix));
    var pnls :- MapAll(masked, NotionalReader(p, ix.avg, ix.filled));
    var symbol :- ColumnIndex(t.columns, "Symbol");
    SelectKeeps(rows, Mask5(p, ix));
    Ok(Filter5(p, masked, ix, pnls, symbol))
  }

  /** Lines 18 and 24 as one mask. */
  function Keep5(p: Parsers, ix: Columns5, symbol: nat): Row -> bool
  {
    Both(Mask5(p, ix), HasSymbol(symbol))
  }

  /** Lines 19-24 keep the masked rows that have a `Symbol`, as they were. */
  lemma Filter5Rows(p: Parsers, rows: seq<Row>, ix: Columns5, pnls: seq<Option<real>>, symbol: nat)
    requires |pnls| == |Select(rows, Mask5(p, ix))|
    requires forall i :: 0 <= i < |Select(rows, Mask5(p, ix))| ==> Mask5(p, ix)(Select(rows, Mask5(p, ix))[i])
    ensures Map(Filter5(p, Select(rows, Mask5(p, ix)), ix, pnls, symbol), RowOf5) == Select(rows, Keep5(p, ix, symbol))
  {
    var masked := Select(rows, Mask5(p, ix));
    var trades := Trades5(p, masked, ix, pnls);
    SelectMap(trades, RowOf5, HasSymbol(symbol));
    assert Map(trades, RowOf5) == masked;
    SelectTwice(rows, Mask5(p, ix), HasSymbol(symbol));
  }

  /** The rows behind version 5's output are those lines 18 and 24 keep. */
  lemma Clean5RowsAre(p: Parsers, t: Table)
    requires Clean5(p, t).Ok?
    ensures Map(Clean5(p, t).value, RowOf5)
         == Select(StripRows(t.rows), Keep5(p, Lookups5(t.columns).value, ColumnIndex(t.columns, "Symbol").value))
  {
    var ix := Lookups5(t.columns).value;
    var rows := StripRows(t.rows);
    SelectKeeps(rows, Mask5(p, ix));
    Filter5Rows(p, rows, ix, MapAll(Select(rows, Mask5(p, ix)), NotionalReader(p, ix.avg, ix.filled)).value,
                ColumnIndex(t.columns, "Symbol").value);
  }

  /** The cleaned rows are the '@'-stripped input rows whose `Status` as text is
      "Filled", whose `Avg Price` and `Filled Time` coerce, and whose `Symbol` is
      present, whatever their `Side`: all of them, each once, in file order. */
  lemma Clean5Rows(p: Parsers, t: Table)
    requires Clean5(p, t).Ok?
    ensures var ix := Lookups5(t.columns).value;
      var symbol := ColumnIndex(t.columns, "Symbol").value;
      var out := Clean5(p, t).value;
      var rows := StripRows(t.rows);
      var ps := Positions(rows, Keep5(p, ix, symbol));
      && |out| == |ps|
      && StrictlyIncreasing(ps)
      && (forall k :: 0 <= k < |out| ==> ps[k] < |rows| && out[k].trade.row == rows[ps[k]])
      && (forall i :: 0 <= i < |rows| ==>
            (i in ps <==>
              && AsText(p, At(rows[i], ix.status)) == "Filled"
              && ToNumeric(p, At(rows[i], ix.avg)).Some?
              && FilledTime(p, At(rows[i], ix.time)).Some?
              && At(rows[i], symbol) != Missing))
  {
    Clean5RowsAre(p, t);
    ImageRows5(p, Clean5(p, t).value, StripRows(t.rows), Lookups5(t.columns).value,
               ColumnIndex(t.columns, "Symbol").value);
  }

  /** `Clean5Rows` for any output whose rows are those the masks keep. */
  lemma ImageRows5(p: Parsers, out: seq<Trade5>, rows: seq<Row>, ix: Columns5, symbol: nat)
    requires Map(out, RowOf5) == Select(rows, Keep5(p, ix, symbol))
    ensures var ps := Positions(rows, Keep5(p, ix, symbol));
      && |out| == |ps|
      && StrictlyIncreasing(ps)
      && (forall k :: 0 <= k < |out| ==> ps[k] < |rows| && out[k].trade.row == rows[ps[k]])
      && (forall i :: 0 <= i < |rows| ==>
            (i in ps <==>
              && AsText(p, At(rows[i], ix.status)) == "Filled"
              && ToNumeric(p, At(rows[i], ix.avg)).Some?
              && FilledTime(p, At(rows[i], ix.time)).Some?
              && At(rows[i], symbol) != Missing))
  {
    SelectedImage(out, RowOf5, rows, Keep5(p, ix, symbol));
    forall i | 0 <= i < |rows|
      ensures Keep5(p, ix, symbol)(rows[i]) <==>
        && AsText(p, At(rows[i], ix.status)) == "Filled"
        && ToNumeric(p, At(rows[i], ix.avg)).Some?
        && FilledTime(p, At(rows[i], ix.time)).Some?
        && At(rows[i], symbol) != Missing
    {
      assert Mask5(p, ix)(rows[i]) == (AsText(p, At(rows[i], ix.status)) == "Filled"
        && ToNumeric(p, At(rows[i], ix.avg)).Some? && FilledTime(p, At(rows[i], ix.time)).Some?);
      assert HasSymbol(symbol)(rows[i]) == (At(rows[i], symbol) != Missing);
    }
  }

  /** One row of lines 19-24's output, for masked rows whose products succeeded. */
  lemma Filter5Values(p: Parsers, masked: seq<Row>, ix: Columns5, pnls: seq<Option<real>>, symbol: nat, k: nat)
    requires |pnls| == |masked|
    requires forall i :: 0 <= i < |masked| ==> Mask5(p, ix)(masked[i])
    requires forall i :: 0 <= i < |masked| ==> NotionalReader(p, ix.avg, ix.filled)(masked[i]) == Ok(pnls[i])
    requires k < |Filter5(p, masked, ix, pnls, symbol)|
    ensures var out := Filter5(p, masked, ix, pnls, symbol)[k];
      var tr := out.trade;
      && Some(tr.avgPrice) == ToNumeric(p, At(tr.row, ix.avg))
      && Some(tr.filledTime) == FilledTime(p, At(tr.row, ix.time))
      && Notional(Some(tr.avgPrice), At(tr.row, ix.filled)) == Ok(tr.pnl)
      && out.status == "Filled"
      && At(tr.row, symbol) != Missing
  {
    var trades := Trades5(p, masked, ix, pnls);
    var keep := Compose(HasSymbol(symbol), RowOf5);
    SelectIsSubsequence(trades, keep);
    var j := Positions(trades, keep)[k];
    assert Filter5(p, masked, ix, pnls, symbol)[k] == trades[j];
    assert NotionalReader(p, ix.avg, ix.filled)(masked[j]) == Ok(pnls[j]);
    assert Mask5(p, ix)(masked[j]);
    assert keep(trades[j]);
    assert HasSymbol(symbol)(RowOf5(trades[j]));
  }

  /** Each cleaned row's `Status` is the text "Filled", its `Symbol` is present, and
      its `PnL` is line 23's product of its coerced `Avg Price` and its `Filled`. */
  lemma Clean5Values(p: Parsers, t: Table, k: nat)
    requires Clean5(p, t).Ok? && k < |Clean5(p, t).value|
    ensures var ix := Lookups5(t.columns).value;
      var out := Clean5(p, t).value[k];
      var tr := out.trade;
      && Some(tr.avgPrice) == ToNumeric(p, At(tr.row, ix.avg))
      && Some(tr.filledTime) == FilledTime(p, At(tr.row, ix.time))
      && Notional(Some(tr.avgPrice), At(tr.row, ix.filled)) == Ok(tr.pnl)
      && out.status == "Filled"
      && At(tr.row, ColumnIndex(t.columns, "Symbol").value) != Missing
  {
    var ix := Lookups5(t.columns).value;
    var rows := StripRows(t.rows);
    var masked := Select(rows, Mask5(p, ix));
    SelectKeeps(rows, Mask5(p, ix));
    var pnls := MapAll(masked, NotionalReader(p, ix.avg, ix.filled)).value;
    Filter5Values(p, masked, ix, pnls, ColumnIndex(t.columns, "Symbol").value, k);
  }

  /** With real (float) prices, a masked row whose `Filled` is text aborts the whole
      file even when line 24 would drop it, and even when there is no `Symbol` column. */
  lemma Clean5TextFilledAborts(p: Parsers, t: Table, i: nat)
    requires Lookups5(t.columns).Ok?
    requires i < |t.rows|
    requires Mask5(p, Lookups5(t.columns).value)(StripRows(t.rows)[i])
    requires At(t.rows[i], Lookups5(t.columns).value.filled).Text?
    ensures Clean5(p, t) == Err(TypeMismatch("Filled"))
  {
    var ix := Lookups5(t.columns).value;
    var rows := StripRows(t.rows);
    SelectContains(rows, Mask5(p, ix), i);
    StripRowsSpec(t.rows, i, ix.filled);
    MapAllFails(Select(rows, Mask5(p, ix)), NotionalReader(p, ix.avg, ix.filled), rows[i]);
  }

  // ---------------------------------------------------------------------------
  // The two versions compared

  /** What version 5.4 requires beyond version 5: the `Status` cell itself is the text
      "Filled", and `Side` is present. */
  function Stricter54(status: nat, side: nat): Row -> bool
  {
    r => At(r, status) == Text("Filled") && At(r, side) != Missing
  }

  /** Row by row, version 5.4's masks keep what version 5's keep and `Stricter54`
      keeps, given the same columns. */
  lemma MasksCompared(p: Parsers, rows: seq<Row>, ix: Columns54, symbol: nat)
    requires symbol == ix.symbol
    ensures Select(rows, Keep54(p, ix))
         == Select(Select(rows, Keep5(p, Columns5(ix.avg, ix.time, ix.status, ix.filled), symbol)), Stricter54(ix.status, ix.side))
  {
    var ix5 := Columns5(ix.avg, ix.time, ix.status, ix.filled);
    SelectTwice(rows, Keep5(p, ix5, symbol), Stricter54(ix.status, ix.side));
    SelectAgree(rows, Keep54(p, ix), Both(Keep5(p, ix5, symbol), Stricter54(ix.status, ix.side)));
  }

  /** Both versions read the same columns. */
  lemma SameColumns(cols: seq<string>)
    requires Lookups54(cols).Ok? && Lookups5(cols).Ok?
    ensures var ix := Lookups54(cols).value;
      Lookups5(cols).value == Columns5(ix.avg, ix.time, ix.status, ix.filled)
      && ColumnIndex(cols, "Symbol") == Ok(ix.symbol)
  {
  }

  /** When both versions clean the same file, version 5.4 keeps exactly the rows of
      version 5 whose `Status` cell is the text "Filled" and whose `Side` is present,
      in the same order. */
  lemma VersionsCompared(p: Parsers, t: Table)
    requires Clean54(p, t).Ok? && Clean5(p, t).Ok?
    ensures var ix := Lookups54(t.columns).value;
      Map(Clean54(p, t).value, RowOf54) == Select(Map(Clean5(p, t).value, RowOf5), Stricter54(ix.status, ix.side))
  {
    SameColumns(t.columns);
    Clean54RowsAre(p, t);
    Clean5RowsAre(p, t);
    MasksCompared(p, StripRows(t.rows), Lookups54(t.columns).value, ColumnIndex(t.columns, "Symbol").value);
  }

  /** `astype(str)` turns NaN into "nan", so a missing `Status` never passes version
      5's comparison; on text and NaN cells that comparison agrees with version 5.4's. */
  lemma StatusAsText(p: Parsers, c: Cell)
    ensures c == Missing ==> AsText(p, c) != "Filled"
    ensures c.Text? || c.Missing? ==> (AsText(p, c) == "Filled" <==> c == Text("Filled"))
  {
  }

  /** A row version 5 keeps but whose `Side` is NaN is dropped by version 5.4; a row
      whose `Status` is NaN is kept by neither. */
  lemma SideAndStatusDiffer(p: Parsers, ix: Columns54, r: Row)
    ensures var ix5 := Columns5(ix.avg, ix.time, ix.status, ix.filled);
      Keep5(p, ix5, ix.symbol)(r) && At(r, ix.side) == Missing ==> !Keep54(p, ix)(r)
    ensures var ix5 := Columns5(ix.avg, ix.time, ix.status, ix.filled);
      At(r, ix.status) == Missing ==> !Keep54(p, ix)(r) && !Keep5(p, ix5, ix.symbol)(r)
  {
    StatusAsText(p, At(r, ix.status));
  }
}
