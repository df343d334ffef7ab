/**
 * The grouping stage: raw rows are grouped by their `code`, each group is
 * stably sorted by date, every row is projected to an OHLCV candle with its
 * volume coerced to a number, and the group's last date is recorded.
 */
module ParseAndSlice {
  import opened Common
  import opened StableSort

  /** The `code` property of a row: a string, or null, or absent */
  datatype Code = Code(s: string) | NullCode | UndefinedCode

  /** The JavaScript values the unary `+` meets in the volume column */
  datatype JsValue = JsNumber(n: real) | JsNaN | JsNull | JsUndefined | JsString(s: string) | JsBool(b: bool)

  /** One raw input row; prices are copied as they are, so they are kept as numbers-or-not */
  datatype Row = Row(code: Code, date: Date, open: Num, high: Num, low: Num, close: Num, volume: JsValue)

  /** One output record: a ticker with its chronologically sorted candles */
  datatype Series = Series(ticker: string, lastDate: Date, candles: seq<Candle>)

  /** `grouped[code]` turns the code into a property key: null and undefined become their names */
  function GroupKey(c: Code): string {
    match c
    case Code(s) => s
    case NullCode => "null"
    case UndefinedCode => "undefined"
  }

  // ---------------------------------------------------------------------------
  // Volume coercion: the unary `+` of the source

  predicate IsDigit(c: char) { '0' <= c <= '9' }

  predicate AllDigits(s: string) { forall i :: 0 <= i < |s| ==> IsDigit(s[i]) }

  function DigitsValue(s: string): nat
    requires AllDigits(s)
  {
    if s == [] then 0 else 10 * DigitsValue(s[..|s| - 1]) + (s[|s| - 1] as int - '0' as int)
  }

  /** Index of the first '.', or |s| when there is none */
  function DotAt(s: string): (k: nat)
    ensures k <= |s|
    ensures forall i :: 0 <= i < k ==> s[i] != '.'
    ensures k < |s| ==> s[k] == '.'
  {
    if s == [] || s[0] == '.' then 0 else 1 + DotAt(s[1..])
  }

  /** `digits[.digits]` or `.digits` with at least one digit */
  function Unsigned(s: string): Option<real> {
    var k := DotAt(s);
    var whole := s[..k];
    var frac := if k < |s| then s[k + 1..] else "";
    if AllDigits(whole) && AllDigits(frac) && |whole| + |frac| > 0 then
      Some(DigitsValue(whole) as real + DigitsValue(frac) as real / Pow10(|frac|))
    else None
  }

  /**
   * The white space and line terminators a numeric string may carry around
   * its literal: tab, vertical tab, form feed, space, no-break space, the
   * byte order mark, the other space separators, and the four line terminators
   */
  predicate IsSpace(c: char) {
    c == '\t' || c == '\n' || c == '\U{000B}' || c == '\U{000C}' || c == '\r' || c == ' ' ||
    c == '\U{00A0}' || c == '\U{1680}' || '\U{2000}' <= c <= '\U{200A}' ||
    c == '\U{2028}' || c == '\U{2029}' || c == '\U{202F}' || c == '\U{205F}' ||
    c == '\U{3000}' || c == '\U{FEFF}'
  }

  /** The string without its leading and trailing white space */
  function Trim(s: string): (t: string)
    ensures t == [] <==> forall i :: 0 <= i < |s| ==> IsSpace(s[i])
    ensures t != [] ==> !IsSpace(t[0]) && !IsSpace(t[|t| - 1])
  {
    if s == [] then []
    else if IsSpace(s[0]) then
      assert forall i :: 1 <= i < |s| ==> s[i] == s[1..][i - 1];
      Trim(s[1..])
    else if IsSpace(s[|s| - 1]) then Trim(s[..|s| - 1])
    else s
  }

  /** A string that neither starts nor ends with white space is its own trim. */
  lemma TrimKeeps(s: string)
    requires s != [] && !IsSpace(s[0]) && !IsSpace(s[|s| - 1])
    ensures Trim(s) == s
  {
  }

  /** Index of the first 'e' or 'E', or |s| when there is none */
  function ExponentAt(s: string): (k: nat)
    ensures k <= |s|
    ensures forall i :: 0 <= i < k ==> s[i] != 'e' && s[i] != 'E'
    ensures k < |s| ==> s[k] == 'e' || s[k] == 'E'
  {
    if s == [] || s[0] == 'e' || s[0] == 'E' then 0 else 1 + ExponentAt(s[1..])
  }

  /** The exponent after 'e': an optional sign and at least one digit */
  function Exponent(s: string): Option<int> {
    var digits := if s != [] && (s[0] == '-' || s[0] == '+') then s[1..] else s;
    if digits != [] && AllDigits(digits) then
      Some(if s[0] == '-' then -(DigitsValue(digits) as int) else DigitsValue(digits))
    else None
  }

  /** v × 10^e */
  function TimesPow10(v: real, e: int): real {
    if e >= 0 then v * Pow10(e) else v / Pow10(-e)
  }

  /** An unsigned decimal literal: a mantissa, then optionally 'e' or 'E' and an exponent */
  function UnsignedLiteral(s: string): Option<real> {
    var k := ExponentAt(s);
    match Unsigned(s[..k])
    case None => None
    case Some(m) =>
      if k == |s| then Some(m)
      else
        match Exponent(s[k + 1..])
        case None => None
        case Some(e) => Some(TimesPow10(m, e))
  }

  /**
   * The string-to-number conversion of unary `+` for decimal literals: white
   * space around the literal is ignored, a string of white space only is 0,
   * a sign may lead, and anything else is NaN
   */
  function StringToNumber(s: string): Num {
    var t := Trim(s);
    if t == [] then Fin(0.0)
    else
      var body := if t[0] == '-' || t[0] == '+' then t[1..] else t;
      match UnsignedLiteral(body)
      case None => NaN
      case Some(v) => if t[0] == '-' then Fin(-v) else Fin(v)
  }

  /** `+v` */
  function ToNumber(v: JsValue): Num {
    match v
    case JsNumber(n) => Fin(n)
    case JsNaN => NaN
    case JsNull => Fin(0.0)
    case JsUndefined => NaN
    case JsString(s) => StringToNumber(s)
    case JsBool(b) => Fin(if b then 1.0 else 0.0)
  }

  /** The decimal digits of n, as a data feed writes a whole volume */
  function Decimal(n: nat): (s: string)
    ensures |s| > 0 && AllDigits(s)
  {
    var d := ['0' + ((n % 10) as char)];
    if n < 10 then d else Decimal(n / 10) + d
  }

  lemma {:induction false} DecimalValue(n: nat)
    ensures DigitsValue(Decimal(n)) == n
  {
    var s := Decimal(n);
    if n >= 10 {
      DecimalValue(n / 10);
      assert s[..|s| - 1] == Decimal(n / 10);
    }
  }

  /** A volume written as a whole number in a string is coerced to that number. */
  lemma VolumeStringRoundTrip(n: nat)
    ensures ToNumber(JsString(Decimal(n))) == Fin(n as real)
    ensures ToNumber(JsString("-" + Decimal(n))) == Fin(-(n as real))
  {
    DecimalReads(n);
    NegatedDecimalReads(n);
  }

  lemma DecimalReads(n: nat)
    ensures ToNumber(JsString(Decimal(n))) == Fin(n as real)
  {
    UnsignedDecimal(n);
    DigitsBare(Decimal(n));
    PlainNumeral(Decimal(n), n as real);
  }

  lemma NegatedDecimalReads(n: nat)
    ensures ToNumber(JsString("-" + Decimal(n))) == Fin(-(n as real))
  {
    UnsignedDecimal(n);
    DigitsBare(Decimal(n));
    NegatedNumeral(Decimal(n), n as real);
  }

  /** A string of digits neither starts nor ends with white space or a sign. */
  lemma DigitsBare(s: string)
    requires s != [] && AllDigits(s)
    ensures !IsSpace(s[0]) && !IsSpace(s[|s| - 1]) && s[0] != '-' && s[0] != '+'
  {
    assert IsDigit(s[0]) && IsDigit(s[|s| - 1]);
  }

  /** An unsigned literal with nothing around it reads as its value. */
  lemma PlainNumeral(s: string, v: real)
    requires UnsignedLiteral(s) == Some(v)
    requires s != [] && !IsSpace(s[0]) && !IsSpace(s[|s| - 1]) && s[0] != '-' && s[0] != '+'
    ensures ToNumber(JsString(s)) == Fin(v)
  {
    TrimKeeps(s);
  }

  /** An unsigned literal after a minus sign reads as its negated value. */
  lemma NegatedNumeral(s: string, v: real)
    requires UnsignedLiteral(s) == Some(v)
    requires s != [] && !IsSpace(s[|s| - 1])
    ensures ToNumber(JsString("-" + s)) == Fin(-v)
  {
    var m := "-" + s;
    assert m[0] == '-' && m[|m| - 1] == s[|s| - 1];
    TrimKeeps(m);
    assert m[1..] == s;
    assert StringToNumber(m) == Fin(-v);
  }

  /** The digits of n, read back without a sign, are n. */
  lemma UnsignedDecimal(n: nat)
    ensures UnsignedLiteral(Decimal(n)) == Some(n as real)
  {
    var s := Decimal(n);
    DecimalValue(n);
    assert DotAt(s) == |s| by {
      assert forall i :: 0 <= i < |s| ==> s[i] != '.';
    }
    assert ExponentAt(s) == |s| by {
      assert forall i :: 0 <= i < |s| ==> s[i] != 'e' && s[i] != 'E';
    }
    assert s[..|s|] == s;
  }

  /** The fixed coercions: null and the empty string are 0, undefined and non-numeric text are NaN. */
  lemma VolumeCoercionCases()
    ensures ToNumber(JsNull) == Fin(0.0)
    ensures ToNumber(JsString("")) == Fin(0.0)
    ensures ToNumber(JsUndefined) == NaN
    ensures ToNumber(JsString("abc")) == NaN
    ensures ToNumber(JsString("-")) == NaN
  {
    assert Trim("abc") == "abc";
    assert ExponentAt("abc") == 3;
    assert "abc"[..3] == "abc";
    assert DotAt("abc") == 3;
    assert !IsDigit("abc"[0]);
    assert Trim("-") == "-";
    assert "-"[1..] == "";
  }

  /** White space around a literal is ignored and white space alone is 0. */
  lemma SpaceCoercion()
    ensures ToNumber(JsString(" 12")) == Fin(12.0)
    ensures ToNumber(JsString(" \t\n")) == Fin(0.0)
  {
    var t := "12";
    assert " 12"[1..] == t;
    TrimKeeps(t);
    assert ExponentAt(t) == 2 && t[..2] == t;
    assert DotAt(t) == 2 && t[..2][..2] == t;
    assert t[..1] == "1";
    assert DigitsValue(t) == 12;
  }

  /** An exponent scales the mantissa by a power of ten; an empty exponent is NaN. */
  lemma ExponentCoercion()
    ensures ToNumber(JsString("1e3")) == Fin(1000.0)
    ensures ToNumber(JsString("2.5E-1")) == Fin(0.25)
    ensures ToNumber(JsString("1e")) == NaN
  {
    OneThousand();
    AQuarter();
    EmptyExponent();
  }

  lemma OneThousand()
    ensures StringToNumber("1e3") == Fin(1000.0)
  {
    var t := "1e3";
    TrimKeeps(t);
    ThousandParts();
    UnsignedOne();
    ExponentThree();
    assert TimesPow10(1.0, 3) == 1000.0;
    assert UnsignedLiteral(t) == Some(1000.0);
  }

  lemma ThousandParts()
    ensures ExponentAt("1e3") == 1 && "1e3"[..1] == "1" && "1e3"[1 + 1..] == "3"
  {
  }

  lemma UnsignedOne()
    ensures Unsigned("1") == Some(1.0)
  {
    assert DotAt("1") == 1 && "1"[..1] == "1";
  }

  lemma ExponentThree()
    ensures Exponent("3") == Some(3)
  {
    assert DigitsValue("3") == 3;
  }

  lemma AQuarter()
    ensures StringToNumber("2.5E-1") == Fin(0.25)
  {
    var u := "2.5E-1";
    TrimKeeps(u);
    QuarterParts();
    TwoAndAHalf();
    MinusOne();
    assert TimesPow10(2.5, -1) == 0.25;
    assert UnsignedLiteral(u) == Some(0.25);
  }

  lemma QuarterParts()
    ensures ExponentAt("2.5E-1") == 3 && "2.5E-1"[..3] == "2.5" && "2.5E-1"[3 + 1..] == "-1"
  {
  }

  lemma MinusOne()
    ensures Exponent("-1") == Some(-1)
  {
    assert "-1"[1..] == "1" && DigitsValue("1") == 1;
  }

  lemma TwoAndAHalf()
    ensures Unsigned("2.5") == Some(2.5)
  {
    assert DotAt("2.5") == 1 && "2.5"[..1] == "2" && "2.5"[2..] == "5";
    assert DigitsValue("2") == 2 && DigitsValue("5") == 5;
  }

  lemma EmptyExponent()
    ensures StringToNumber("1e") == NaN
  {
    var w := "1e";
    TrimKeeps(w);
    assert ExponentAt(w) == 1 && w[..1] == "1" && w[2..] == "";
    assert DotAt("1") == 1 && "1"[..1] == "1";
    assert Exponent("") == None;
    assert UnsignedLiteral(w) == None;
  }

  // ---------------------------------------------------------------------------
  // Grouping

  /** The distinct group keys of the rows, in order of first appearance */
  function Keys(rows: seq<Row>): seq<string> {
    if rows == [] then []
    else
      var ks := Keys(rows[..|rows| - 1]);
      var k := GroupKey(rows[|rows| - 1].code);
      if k in ks then ks else ks + [k]
  }

  /** The rows grouped under key k, in input order */
  function Group(rows: seq<Row>, k: string): seq<Row> {
    Filter(rows, (r: Row) => GroupKey(r.code) == k)
  }

  /** The sort key of `new Date(a.date) - new Date(b.date)` */
  function DateKey(r: Row): real { r.date as real }

  /** `({ date, open, high, low, close, volume }) => ({ date, open, high, low, close, volume: +volume })` */
  function ToCandle(r: Row): Candle {
    Candle(r.date, r.open, r.high, r.low, r.close, ToNumber(r.volume))
  }

  function Candles(rows: seq<Row>): (cs: seq<Candle>)
    ensures |cs| == |rows|
  {
    seq(|rows|, i requires 0 <= i < |rows| => ToCandle(rows[i]))
  }

  /** The last candle's date; `today` is the source's fallback for an empty or undated group */
  function LastDate(cs: seq<Candle>, today: Date): Date {
    if |cs| > 0 then cs[|cs| - 1].date else today
  }

  function SeriesOf(rows: seq<Row>, k: string, today: Date): Series {
    var cs := Candles(SortBy(Group(rows, k), DateKey));
    Series(k, LastDate(cs, today), cs)
  }

  /** The stage's result: one record per distinct key */
  function Parse(rows: seq<Row>, today: Date): seq<Series> {
    var ks := Keys(rows);
    seq(|ks|, m requires 0 <= m < |ks| => SeriesOf(rows, ks[m], today))
  }

  lemma GroupStep(rows: seq<Row>, i: nat, k: string)
    requires i < |rows|
    ensures Group(rows[..i + 1], k) == Group(rows[..i], k) + (if GroupKey(rows[i].code) == k then [rows[i]] else [])
  {
    assert rows[..i + 1][..i] == rows[..i];
  }

  lemma {:induction false} KeysComplete(rows: seq<Row>, k: string)
    ensures k in Keys(rows) <==> Group(rows, k) != []
  {
    if rows != [] {
      var init := rows[..|rows| - 1];
      KeysComplete(init, k);
      GroupStep(rows, |rows| - 1, k);
      assert rows[..|rows|] == rows;
    }
  }

  lemma {:induction false} KeysDistinct(rows: seq<Row>)
    ensures forall i, j :: 0 <= i < j < |Keys(rows)| ==> Keys(rows)[i] != Keys(rows)[j]
  {
    if rows != [] {
      KeysDistinct(rows[..|rows| - 1]);
    }
  }

  method ParseAndSlice(rows: seq<Row>, today: Date) returns (out: seq<Series>)
    ensures rows == [] ==> out == []
    ensures out == Parse(rows, today)
  {
    if |rows| == 0 {
      return [];
    }
    var grouped, keys := GroupRows(rows);
    out := BuildSeries(rows, grouped, keys, today);
    ParseIndex(rows, today, out);
  }

  /** The second loop of the stage: one record per key, in key order */
  method BuildSeries(ghost rows: seq<Row>, grouped: map<string, seq<Row>>, keys: seq<string>, today: Date)
    returns (out: seq<Series>)
    requires forall k :: k in keys ==> k in grouped && grouped[k] == Group(rows, k)
    ensures |out| == |keys|
    ensures forall n :: 0 <= n < |keys| ==> out[n] == SeriesOf(rows, keys[n], today)
  {
    ghost var f := (k: string) => SeriesOf(rows, k, today);
    out := [];
    for m := 0 to |keys|
      invariant |out| == m
      invariant forall n :: 0 <= n < m ==> out[n] == f(keys[n])
    {
      var s := SortGroup(rows, keys[m], grouped[keys[m]], today);
      MapStep(out, keys, f, m);
      out := out + [s];
    }
  }

  lemma ParseIndex(rows: seq<Row>, today: Date, out: seq<Series>)
    requires |out| == |Keys(rows)|
    requires forall n :: 0 <= n < |out| ==> out[n] == SeriesOf(rows, Keys(rows)[n], today)
    ensures out == Parse(rows, today)
  {
  }

  /** The first loop of the stage: rows collected per key, keys remembered in order of first appearance */
  method GroupRows(rows: seq<Row>) returns (grouped: map<string, seq<Row>>, keys: seq<string>)
    ensures keys == Keys(rows)
    ensures forall k :: k in grouped <==> k in keys
    ensures forall k :: k in grouped ==> grouped[k] == Group(rows, k)
  {
    grouped, keys := map[], [];
    for i := 0 to |rows|
      invariant keys == Keys(rows[..i])
      invariant forall k :: k in grouped <==> k in keys
      invariant forall k :: k in grouped ==> grouped[k] == Group(rows[..i], k)
    {
      var k := GroupKey(rows[i].code);
      assert rows[..i + 1][..i] == rows[..i];
      forall k' ensures Group(rows[..i + 1], k') == Group(rows[..i], k') + (if k == k' then [rows[i]] else []) {
        GroupStep(rows, i, k');
      }
      if k in grouped {
        grouped := grouped[k := grouped[k] + [rows[i]]];
      } else {
        KeysComplete(rows[..i], k);
        grouped := grouped[k := [rows[i]]];
        keys := keys + [k];
      }
    }
    assert rows[..|rows|] == rows;
  }

  /** The second loop's body: one group sorted by date in place and projected to candles */
  method SortGroup(ghost rows: seq<Row>, k: string, items: seq<Row>, today: Date) returns (s: Series)
    requires items == Group(rows, k)
    ensures s == SeriesOf(rows, k, today)
  {
    var a := new Row[|items|](j requires 0 <= j < |items| => items[j]);
    assert a[..] == items;
    SortInPlace(a, DateKey);
    var candles := Candles(a[..]);
    s := Series(k, LastDate(candles, today), candles);
  }

  // ---------------------------------------------------------------------------
  // What the grouping promises

  /** Tickers are pairwise distinct. */
  lemma ParseTickersDistinct(rows: seq<Row>, today: Date)
    ensures forall i, j :: 0 <= i < j < |Parse(rows, today)| ==> Parse(rows, today)[i].ticker != Parse(rows, today)[j].ticker
  {
    KeysDistinct(rows);
  }

  /** Every input row lands in the record whose ticker is its group key (tickers are distinct, so that record is unique). */
  lemma ParseRowPlacement(rows: seq<Row>, today: Date, i: nat)
    requires i < |rows|
    ensures exists j :: (0 <= j < |Parse(rows, today)| && Parse(rows, today)[j].ticker == GroupKey(rows[i].code) &&
      ToCandle(rows[i]) in Parse(rows, today)[j].candles)
  {
    var k := GroupKey(rows[i].code);
    var g := Group(rows, k);
    FilterKeeps(rows, (r: Row) => GroupKey(r.code) == k, rows[i]);
    KeysComplete(rows, k);
    var ks := Keys(rows);
    var j :| 0 <= j < |ks| && ks[j] == k;
    SeriesHasRow(rows, k, today, rows[i]);
    assert Parse(rows, today)[j] == SeriesOf(rows, k, today);
  }

  lemma SeriesHasRow(rows: seq<Row>, k: string, today: Date, r: Row)
    requires r in Group(rows, k)
    ensures ToCandle(r) in SeriesOf(rows, k, today).candles
  {
    var t := SortBy(Group(rows, k), DateKey);
    SortBySorted(Group(rows, k), DateKey);
    var n :| 0 <= n < |t| && t[n] == r;
    assert Candles(t)[n] == ToCandle(r);
  }

  /** Every record's candles are in non-decreasing date order, and its last date is its last candle's. */
  lemma ParseRecordSorted(rows: seq<Row>, today: Date, j: nat)
    requires j < |Parse(rows, today)|
    ensures var r := Parse(rows, today)[j];
      |r.candles| > 0 && r.lastDate == r.candles[|r.candles| - 1].date &&
      forall a, b :: 0 <= a < b < |r.candles| ==> r.candles[a].date <= r.candles[b].date
  {
    var k := Keys(rows)[j];
    KeysComplete(rows, k);
    var t := SortBy(Group(rows, k), DateKey);
    SortBySorted(Group(rows, k), DateKey);
    var r := Parse(rows, today)[j];
    forall a, b | 0 <= a < b < |r.candles| ensures r.candles[a].date <= r.candles[b].date {
      assert DateKey(t[a]) <= DateKey(t[b]);
    }
  }

  /**
   * Stability: within a record, the rows that share a date appear in their
   * input order, and no row of another group is present.
   */
  lemma ParseRecordStable(rows: seq<Row>, today: Date, j: nat, d: Date)
    requires j < |Parse(rows, today)|
    ensures var r := Parse(rows, today)[j];
      var g := Group(rows, r.ticker);
      exists t: seq<Row> ::
        r.candles == Candles(t) && WithKey(t, DateKey, d as real) == WithKey(g, DateKey, d as real) &&
        (forall row :: row in t <==> row in rows && GroupKey(row.code) == r.ticker)
  {
    var k := Keys(rows)[j];
    var g := Group(rows, k);
    var t := SortBy(g, DateKey);
    SortByStable(g, DateKey, d as real);
    SortBySorted(g, DateKey);
    forall row ensures row in t <==> row in rows && GroupKey(row.code) == k {
      FilterKeeps(rows, (r: Row) => GroupKey(r.code) == k, row);
    }
  }

  /** Total number of candles over a list of records */
  function CandleCount(out: seq<Series>): nat {
    if out == [] then 0 else CandleCount(out[..|out| - 1]) + |out[|out| - 1].candles|
  }

  /** Sum of the group sizes of the given keys */
  function GroupSizes(rows: seq<Row>, ks: seq<string>): nat {
    if ks == [] then 0 else GroupSizes(rows, ks[..|ks| - 1]) + |Group(rows, ks[|ks| - 1])|
  }

  lemma {:induction false} GroupSizesStep(rows: seq<Row>, r: Row, ks: seq<string>)
    requires forall i, j :: 0 <= i < j < |ks| ==> ks[i] != ks[j]
    ensures GroupSizes(rows + [r], ks) == GroupSizes(rows, ks) + (if GroupKey(r.code) in ks then 1 else 0)
  {
    if ks != [] {
      var init := ks[..|ks| - 1];
      GroupSizesStep(rows, r, init);
      assert (rows + [r])[..|rows|] == rows;
      GroupStep(rows + [r], |rows|, ks[|ks| - 1]);
      assert (rows + [r])[..|rows| + 1] == rows + [r];
      assert GroupKey(r.code) in ks <==> GroupKey(r.code) in init || GroupKey(r.code) == ks[|ks| - 1];
      if GroupKey(r.code) == ks[|ks| - 1] {
        assert GroupKey(r.code) !in init;
      }
    }
  }

  lemma {:induction false} GroupSizesTotal(rows: seq<Row>)
    ensures GroupSizes(rows, Keys(rows)) == |rows|
  {
    if rows != [] {
      var init, r := rows[..|rows| - 1], rows[|rows| - 1];
      assert rows == init + [r];
      GroupSizesTotal(init);
      KeysDistinct(init);
      GroupSizesStep(init, r, Keys(init));
      var k := GroupKey(r.code);
      if k !in Keys(init) {
        KeysComplete(init, k);
        GroupStep(rows, |rows| - 1, k);
        assert rows[..|rows|] == rows;
      }
    }
  }

  lemma {:induction false} CandleCountPrefix(rows: seq<Row>, today: Date, m: nat)
    requires m <= |Keys(rows)|
    ensures CandleCount(Parse(rows, today)[..m]) == GroupSizes(rows, Keys(rows)[..m])
  {
    if m > 0 {
      CandleCountPrefix(rows, today, m - 1);
      assert Parse(rows, today)[..m][..m - 1] == Parse(rows, today)[..m - 1];
      assert Keys(rows)[..m][..m - 1] == Keys(rows)[..m - 1];
    }
  }

  /** No row is lost or duplicated: the candle counts add up to the row count. */
  lemma ParseCandleCount(rows: seq<Row>, today: Date)
    ensures CandleCount(Parse(rows, today)) == |rows|
  {
    var out := Parse(rows, today);
    CandleCountPrefix(rows, today, |out|);
    assert out[..|out|] == out;
    assert Keys(rows)[..|out|] == Keys(rows);
    GroupSizesTotal(rows);
  }
}
