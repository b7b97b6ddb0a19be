/** Values shared by every dashboard: the cells of a parsed CSV table, the failures
    that abort a whole file, the library parsers the dashboards call with
    `errors="coerce"`, and the two table operations every pipeline uses (looking up
    a column by its label, and keeping the rows a boolean mask selects). */
module Cells {

  datatype Option<+T> = None | Some(value: T)

  /** A failure that aborts the processing of a whole file (a Python exception). */
  datatype Failure =
    | MissingColumn(name: string)      // KeyError: no column has this label
    | AmbiguousColumn(name: string)    // the label names several columns, so a frame comes back
    | NotNumeric(column: string)       // astype(float) met text that is not a number
    | MissingNumber(column: string)    // astype(float) met an empty cell (see README, Left out)
    | NotText(column: string)          // string operation on a column that holds no text
    | TypeMismatch(column: string)     // arithmetic between a number and text
    | HourOutOfRange(hour: int)        // strptime(str(hour), "%H") rejects the hour
    | NotImplemented(broker: string)   // the dashboard refuses this broker

  datatype Result<+T> = Ok(value: T) | Err(failure: Failure) {
    predicate IsFailure() { Err? }
    function PropagateFailure<U>(): Result<U>
      requires Err?
    {
      Err(failure)
    }
    function Extract(): T
      requires Ok?
    {
      value
    }
  }

  /** The broker formats the dashboards offer. */
  datatype Broker = Webull | Robinhood | ThinkorSwim

  function BrokerName(b: Broker): string
  {
    match b
    case Webull => "Webull"
    case Robinhood => "Robinhood"
    case ThinkorSwim => "ThinkorSwim"
  }

  /** A naive wall-clock instant, in seconds since 1970-01-01 00:00:00. */
  datatype Timestamp = Timestamp(seconds: int)

  /** One cell of a data frame: NaN/None, text, a number, or a parsed datetime. */
  datatype Cell = Missing | Text(s: string) | Number(x: real) | Stamp(t: Timestamp)

  type Row = seq<Cell>

  /** A data frame: column labels and positional rows. */
  datatype Table = Table(columns: seq<string>, rows: seq<Row>)

  /** The library parsers, left abstract: text to number (`pd.to_numeric`, `float`),
      inferred datetime parsing (`pd.to_datetime`), the Webull timestamp format
      `%m/%d/%Y %H:%M:%S EST`, and `astype(str)` of a number or datetime. */
  datatype Parsers = Parsers(
    number: string -> Option<real>,
    datetime: Cell -> Option<Timestamp>,
    webullTime: string -> Option<Timestamp>,
    render: Cell -> string)

  /** The cell in column `i` of a row, or Missing past its end. */
  function At(r: Row, i: nat): Cell
  {
    if i < |r| then r[i] else Missing
  }

  /** `pd.to_numeric(errors="coerce")` on one cell. */
  function ToNumeric(p: Parsers, c: Cell): Option<real>
  {
    match c
    case Number(x) => Some(x)
    case Text(s) => p.number(s)
    case Missing => None
    case Stamp(_) => None
  }

  /** `pd.to_datetime(errors="coerce")` on one cell; a datetime stays as it is. */
  function ToDatetime(p: Parsers, c: Cell): Option<Timestamp>
  {
    match c
    case Stamp(t) => Some(t)
    case Missing => None
    case _ => p.datetime(c)
  }

  /** `astype(str)` on one cell: text is kept, NaN becomes "nan". */
  function AsText(p: Parsers, c: Cell): string
  {
    match c
    case Text(s) => s
    case Missing => "nan"
    case _ => p.render(c)
  }

  /** True when adding text to this column succeeds in pandas: the column has an
      object dtype (it has no rows, or it holds some text) and no cell is present
      without being text, since adding text to a number raises. A column read with
      only numbers or only empty cells is numeric, and adding text to it raises. */
  predicate IsTextColumn(rows: seq<Row>, j: nat)
  {
    |rows| == 0 ||
    ((exists r :: r in rows && At(r, j).Text?) &&
     (forall r :: r in rows ==> At(r, j).Text? || At(r, j).Missing?))
  }

  // ---------------------------------------------------------------------------
  // Column lookup

  function FirstIndex(cols: seq<string>, name: string): (i: nat)
    ensures i <= |cols|
    ensures i < |cols| ==> cols[i] == name
    ensures forall k :: 0 <= k < i ==> cols[k] != name
  {
    if cols == [] then 0
    else if cols[0] == name then 0
    else 1 + FirstIndex(cols[1..], name)
  }

  /** `df[name]` for a single column: the position of the one column with that label,
      MissingColumn when there is none, AmbiguousColumn when there are several. */
  function ColumnIndex(cols: seq<string>, name: string): (r: Result<nat>)
    ensures r.Ok? ==> r.value < |cols| && cols[r.value] == name
    ensures r.Ok? ==> forall k :: 0 <= k < |cols| && cols[k] == name ==> k == r.value
    ensures name !in cols <==> r == Err(MissingColumn(name))
    ensures r.Err? && name in cols ==> r == Err(AmbiguousColumn(name))
    ensures (forall k, l :: 0 <= k < l < |cols| && cols[k] == name ==> cols[l] != name) && name in cols ==> r.Ok?
  {
    var i := FirstIndex(cols, name);
    if i == |cols| then Err(MissingColumn(name))
    else if name in cols[i + 1..] then
      Err(AmbiguousColumn(name))
    else
      assert forall k :: i < k < |cols| ==> cols[k] == cols[i + 1..][k - i - 1];
      Ok(i)
  }

  // ---------------------------------------------------------------------------
  // Boolean-mask selection

  /** `df[mask]`: the elements the predicate keeps, in their original order. */
  function Select<T>(xs: seq<T>, keep: T -> bool): seq<T>
  {
    if xs == [] then []
    else (if keep(xs[0]) then [xs[0]] else []) + Select(xs[1..], keep)
  }

  /** The positions (counted from `offset`) of the elements the predicate keeps. */
  function PositionsFrom<T>(xs: seq<T>, keep: T -> bool, offset: nat): seq<nat>
  {
    if xs == [] then []
    else (if keep(xs[0]) then [offset] else []) + PositionsFrom(xs[1..], keep, offset + 1)
  }

  function Positions<T>(xs: seq<T>, keep: T -> bool): seq<nat>
  {
    PositionsFrom(xs, keep, 0)
  }

  predicate StrictlyIncreasing(ps: seq<nat>)
  {
    forall k, l :: 0 <= k < l < |ps| ==> ps[k] < ps[l]
  }

  lemma {:induction false} SelectLength<T>(xs: seq<T>, keep: T -> bool, offset: nat)
    ensures |Select(xs, keep)| == |PositionsFrom(xs, keep, offset)|
  {
    if xs != [] {
      SelectLength(xs[1..], keep, offset + 1);
    }
  }

  lemma {:induction false} PositionsBounds<T>(xs: seq<T>, keep: T -> bool, offset: nat)
    ensures forall k :: 0 <= k < |PositionsFrom(xs, keep, offset)| ==>
      offset <= PositionsFrom(xs, keep, offset)[k] < offset + |xs|
  {
    if xs != [] {
      PositionsBounds(xs[1..], keep, offset + 1);
      var ps := PositionsFrom(xs, keep, offset);
      var rest := PositionsFrom(xs[1..], keep, offset + 1);
      if keep(xs[0]) {
        assert ps == [offset] + rest;
        forall k | 0 <= k < |ps| ensures offset <= ps[k] < offset + |xs| {
          if k > 0 {
            assert ps[k] == rest[k - 1];
          }
        }
      } else {
        assert ps == rest;
        forall k | 0 <= k < |ps| ensures offset <= ps[k] < offset + |xs| {
          assert ps[k] == rest[k];
        }
      }
    }
  }

  lemma {:induction false} PositionsIncrease<T>(xs: seq<T>, keep: T -> bool, offset: nat)
    ensures StrictlyIncreasing(PositionsFrom(xs, keep, offset))
  {
    if xs != [] {
      PositionsIncrease(xs[1..], keep, offset + 1);
      PositionsBounds(xs[1..], keep, offset + 1);
      var ps := PositionsFrom(xs, keep, offset);
      var rest := PositionsFrom(xs[1..], keep, offset + 1);
      if keep(xs[0]) {
        assert ps == [offset] + rest;
        forall k, l | 0 <= k < l < |ps| ensures ps[k] < ps[l] {
          assert ps[l] == rest[l - 1];
          assert offset + 1 <= rest[l - 1];
          if k > 0 {
            assert ps[k] == rest[k - 1];
          }
        }
      } else {
        assert ps == rest;
      }
    }
  }

  lemma {:induction false} SelectAtPositions<T>(xs: seq<T>, keep: T -> bool, offset: nat)
    ensures var ps := PositionsFrom(xs, keep, offset);
      |Select(xs, keep)| == |ps| &&
      forall k :: 0 <= k < |ps| ==> offset <= ps[k] < offset + |xs| && Select(xs, keep)[k] == xs[ps[k] - offset]
  {
    SelectLength(xs, keep, offset);
    PositionsBounds(xs, keep, offset);
    if xs != [] {
      SelectAtPositions(xs[1..], keep, offset + 1);
      var ps := PositionsFrom(xs, keep, offset);
      var rest := PositionsFrom(xs[1..], keep, offset + 1);
      forall k | 0 <= k < |ps| ensures Select(xs, keep)[k] == xs[ps[k] - offset] {
        if keep(xs[0]) && k == 0 {
        } else {
          var k' := if keep(xs[0]) then k - 1 else k;
          assert ps[k] == rest[k'];
          assert Select(xs, keep)[k] == Select(xs[1..], keep)[k'];
          assert xs[1..][rest[k'] - (offset + 1)] == xs[ps[k] - offset];
        }
      }
    }
  }

  lemma {:induction false} PositionsMembership<T>(xs: seq<T>, keep: T -> bool, offset: nat, i: nat)
    requires offset <= i < offset + |xs|
    ensures i in PositionsFrom(xs, keep, offset) <==> keep(xs[i - offset])
  {
    PositionsBounds(xs[1..], keep, offset + 1);
    if i > offset {
      PositionsMembership(xs[1..], keep, offset + 1, i);
      assert xs[1..][i - (offset + 1)] == xs[i - offset];
    }
  }

  /** Selecting rows by a mask yields exactly the rows the mask keeps, as a subsequence
      of the input in the original order: the k-th kept row is the input row at the
      k-th position of `Positions`, those positions increase, and a position is among
      them exactly when the mask keeps that row. */
  lemma SelectIsSubsequence<T>(xs: seq<T>, keep: T -> bool)
    ensures var ps := Positions(xs, keep);
      && |Select(xs, keep)| == |ps|
      && StrictlyIncreasing(ps)
      && (forall k :: 0 <= k < |ps| ==> ps[k] < |xs| && Select(xs, keep)[k] == xs[ps[k]] && keep(xs[ps[k]]))
      && (forall i :: 0 <= i < |xs| ==> (i in ps <==> keep(xs[i])))
  {
    SelectAtPositions(xs, keep, 0);
    PositionsIncrease(xs, keep, 0);
    var ps := Positions(xs, keep);
    forall i | 0 <= i < |xs| ensures i in ps <==> keep(xs[i]) {
      PositionsMembership(xs, keep, 0, i);
    }
    forall k | 0 <= k < |ps| ensures keep(xs[ps[k]]) {
      PositionsMembership(xs, keep, 0, ps[k]);
    }
  }

  function Both<T>(f: T -> bool, g: T -> bool): T -> bool
  {
    x => f(x) && g(x)
  }

  /** Two masks applied one after the other keep what their conjunction keeps. */
  lemma {:induction false} SelectTwice<T>(xs: seq<T>, f: T -> bool, g: T -> bool)
    ensures Select(Select(xs, f), g) == Select(xs, Both(f, g))
  {
    if xs != [] {
      SelectTwice(xs[1..], f, g);
      var head := if f(xs[0]) then [xs[0]] else [];
      assert Select(xs, f) == head + Select(xs[1..], f);
      SelectAppend(head, Select(xs[1..], f), g);
    }
  }

  lemma {:induction false} SelectAppend<T>(a: seq<T>, b: seq<T>, keep: T -> bool)
    ensures Select(a + b, keep) == Select(a, keep) + Select(b, keep)
  {
    if a != [] {
      assert (a + b)[1..] == a[1..] + b;
      SelectAppend(a[1..], b, keep);
    } else {
      assert a + b == b;
    }
  }

  /** A sequence whose image under `f` is a selection of `xs`: its elements come, in
      order, from the positions the mask keeps. */
  lemma SelectedImage<T, U>(out: seq<U>, f: U -> T, xs: seq<T>, keep: T -> bool)
    requires Map(out, f) == Select(xs, keep)
    ensures var ps := Positions(xs, keep);
      && |out| == |ps|
      && StrictlyIncreasing(ps)
      && (forall k :: 0 <= k < |out| ==> ps[k] < |xs| && f(out[k]) == xs[ps[k]])
      && (forall i :: 0 <= i < |xs| ==> (i in ps <==> keep(xs[i])))
  {
    SelectIsSubsequence(xs, keep);
    assert forall k :: 0 <= k < |out| ==> f(out[k]) == Map(out, f)[k];
  }

  /** `df["Status"] == "Filled"` as a mask: only the text "Filled" is equal to it. */
  function IsFilled(status: nat): Row -> bool
  {
    r => At(r, status) == Text("Filled")
  }

  /** Two masks that agree on every element select the same elements. */
  lemma {:induction false} SelectAgree<T>(xs: seq<T>, f: T -> bool, g: T -> bool)
    requires forall x :: x in xs ==> f(x) == g(x)
    ensures Select(xs, f) == Select(xs, g)
  {
    if xs != [] {
      assert xs[0] in xs;
      SelectAgree(xs[1..], f, g);
    }
  }

  /** An element the mask keeps is among the selected ones. */
  lemma {:induction false} SelectContains<T>(xs: seq<T>, keep: T -> bool, i: nat)
    requires i < |xs| && keep(xs[i])
    ensures xs[i] in Select(xs, keep)
  {
    if i > 0 {
      SelectContains(xs[1..], keep, i - 1);
    }
  }

  /** What a mask keeps comes from the sequence it is applied to. */
  lemma {:induction false} SelectedIn<T>(xs: seq<T>, keep: T -> bool, x: T)
    requires x in Select(xs, keep)
    ensures x in xs
  {
    if xs[0] != x {
      SelectedIn(xs[1..], keep, x);
    }
  }

  /** Everything the mask keeps satisfies it. */
  lemma {:induction false} SelectKeeps<T>(xs: seq<T>, keep: T -> bool)
    ensures forall i :: 0 <= i < |Select(xs, keep)| ==> keep(Select(xs, keep)[i])
  {
    if xs != [] {
      SelectKeeps(xs[1..], keep);
      var head := if keep(xs[0]) then [xs[0]] else [];
      assert forall i :: |head| <= i < |Select(xs, keep)| ==> Select(xs, keep)[i] == Select(xs[1..], keep)[i - |head|];
    }
  }

  /** The values `f` gives, element by element. */
  function Map<T, U>(xs: seq<T>, f: T -> U): (r: seq<U>)
    ensures |r| == |xs| && forall i :: 0 <= i < |xs| ==> r[i] == f(xs[i])
  {
    seq(|xs|, i requires 0 <= i < |xs| => f(xs[i]))
  }

  function Compose<T, U>(g: U -> bool, f: T -> U): T -> bool
  {
    x => g(f(x))
  }

  /** Masking derived values is masking the originals by the composed test. */
  lemma {:induction false} SelectMap<T, U>(xs: seq<T>, f: T -> U, g: U -> bool)
    ensures Select(Map(xs, f), g) == Map(Select(xs, Compose(g, f)), f)
  {
    if xs != [] {
      SelectMap(xs[1..], f, g);
      assert Map(xs, f)[1..] == Map(xs[1..], f);
      var head := if g(f(xs[0])) then [xs[0]] else [];
      assert Select(xs, Compose(g, f)) == head + Select(xs[1..], Compose(g, f));
      assert Map(head + Select(xs[1..], Compose(g, f)), f) == Map(head, f) + Map(Select(xs[1..], Compose(g, f)), f);
    }
  }

  // ---------------------------------------------------------------------------
  // Column conversion that aborts on the first bad cell

  /** Applies a conversion that may raise to every element; the first failure aborts. */
  function MapAll<T, U>(xs: seq<T>, f: T -> Result<U>): (r: Result<seq<U>>)
    ensures r.Ok? <==> forall i :: 0 <= i < |xs| ==> f(xs[i]).Ok?
    ensures r.Ok? ==> |r.value| == |xs| && forall i :: 0 <= i < |xs| ==> r.value[i] == f(xs[i]).value
    ensures r.Err? ==> exists i :: 0 <= i < |xs| && f(xs[i]) == Err(r.failure) && forall k :: 0 <= k < i ==> f(xs[k]).Ok?
  {
    if xs == [] then Ok([])
    else
      match f(xs[0])
      case Err(e) => Err(e)
      case Ok(y) =>
        match MapAll(xs[1..], f)
        case Err(e) =>
          ghost var i :| 0 <= i < |xs[1..]| && f(xs[1..][i]) == Err(e) && forall k :: 0 <= k < i ==> f(xs[1..][k]).Ok?;
          assert f(xs[i + 1]) == Err(e);
          assert forall k :: 1 <= k < i + 1 ==> f(xs[k]) == f(xs[1..][k - 1]);
          Err(e)
        case Ok(ys) =>
          assert forall i :: 1 <= i < |xs| ==> xs[i] == xs[1..][i - 1];
          Ok([y] + ys)
  }

  /** One element that fails makes the whole conversion fail. */
  lemma MapAllFails<T, U>(xs: seq<T>, f: T -> Result<U>, x: T)
    requires x in xs && f(x).Err?
    ensures MapAll(xs, f).Err?
  {
    var i :| 0 <= i < |xs| && xs[i] == x;
  }

  // ---------------------------------------------------------------------------
  // '@' decorations

  /** The text with every '@' removed. */
  function StripAt(s: string): string
  {
    if s == [] then []
    else (if s[0] == '@' then [] else [s[0]]) + StripAt(s[1..])
  }

  lemma {:induction false} StripAtConcat(s: string, t: string)
    ensures StripAt(s + t) == StripAt(s) + StripAt(t)
  {
    if s == [] {
      assert s + t == t;
    } else {
      assert (s + t)[0] == s[0];
      assert (s + t)[1..] == s[1..] + t;
      StripAtConcat(s[1..], t);
    }
  }

  /** Removing '@' leaves no '@' and drops exactly the '@' characters. The result is
      fixed by three of these facts: it works piecewise, "@" becomes empty, and text
      without '@' (a single other character in particular) is unchanged. */
  lemma {:induction false} StripAtSpec(s: string)
    ensures '@' !in StripAt(s)
    ensures |StripAt(s)| == |s| - multiset(s)['@']
    ensures '@' !in s ==> StripAt(s) == s
    ensures StripAt("@") == ""
    ensures forall t: string :: StripAt(s + t) == StripAt(s) + StripAt(t)
    ensures StripAt(StripAt(s)) == StripAt(s)
  {
    forall t: string ensures StripAt(s + t) == StripAt(s) + StripAt(t) {
      StripAtConcat(s, t);
    }
    assert "@"[1..] == [];
    if s != [] {
      StripAtSpec(s[1..]);
      assert s == [s[0]] + s[1..];
      assert multiset(s) == multiset{s[0]} + multiset(s[1..]);
      var h := if s[0] == '@' then [] else [s[0]];
      assert StripAt(s) == h + StripAt(s[1..]);
      StripAtOfPlain(h);
      StripAtConcat(h, StripAt(s[1..]));
    }
  }

  lemma StripAtOfPlain(h: string)
    requires |h| <= 1 && '@' !in h
    ensures StripAt(h) == h
  {
    if h != [] {
      assert h[1..] == [];
    }
  }

  /** `applymap(lambda x: x.replace("@", "") if isinstance(x, str) else x)` on one cell. */
  function StripCell(c: Cell): (r: Cell)
    ensures c.Text? ==> r == Text(StripAt(c.s))
    ensures !c.Text? ==> r == c
  {
    match c
    case Text(s) => Text(StripAt(s))
    case _ => c
  }

  function StripRow(r: Row): (out: Row)
    ensures |out| == |r| && forall j :: 0 <= j < |r| ==> out[j] == StripCell(r[j])
  {
    seq(|r|, j requires 0 <= j < |r| => StripCell(r[j]))
  }

  function StripRows(rows: seq<Row>): (out: seq<Row>)
    ensures |out| == |rows| && forall i :: 0 <= i < |rows| ==> out[i] == StripRow(rows[i])
  {
    seq(|rows|, i requires 0 <= i < |rows| => StripRow(rows[i]))
  }

  /** Every '@' is gone from every text cell of the stripped table, and every cell that
      is not text is as it was. */
  lemma StripRowsSpec(rows: seq<Row>, i: nat, j: nat)
    requires i < |rows| && j < |rows[i]|
    ensures StripRows(rows)[i][j].Text? <==> rows[i][j].Text?
    ensures rows[i][j].Text? ==> '@' !in StripRows(rows)[i][j].s
    ensures !rows[i][j].Text? ==> StripRows(rows)[i][j] == rows[i][j]
    ensures At(StripRows(rows)[i], j) == StripCell(At(rows[i], j))
  {
    if rows[i][j].Text? {
      StripAtSpec(rows[i][j].s);
    }
  }
}
