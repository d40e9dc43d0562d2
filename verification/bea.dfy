/** The BEA personal-consumption fetch (`api/bea_api.py`): keep the items of
    six NIPA table T20305 series, parse their comma-grouped values, and sum
    each category across the quarters. The HTTP reply is a parameter. */
module Bea {
  import opened Common
  import opened Dicts
  import Calendar

  /** One element of `BEAAPI.Results.Data`. */
  datatype BeaItem = BeaItem(seriesCode: string, dataValue: string, timePeriod: string)

  /** The outcome of the request: a `requests` failure, a JSON body lacking a key on the
      path `BEAAPI`, `Results`, `Data` (the first one missing), or the `Data` list. */
  datatype BeaReply = RequestFailed(message: string) | MissingKey(key: string) | Fetched(items: seq<BeaItem>)

  /** A kept row: `{"category", "amount", "quarter"}`. */
  datatype SpendingRow = SpendingRow(category: string, amount: real, quarter: string)

  /** The series codes in the order of `category_map`. */
  const SeriesCodes: seq<string> := ["DFXARC", "DHUTRC", "DTRSRC", "DRCARC", "DCLORC", "DHLCRC"]

  const CategoryMap: map<string, string> := map[
    "DFXARC" := "Food",
    "DHUTRC" := "Housing",
    "DTRSRC" := "Transportation",
    "DRCARC" := "Entertainment",
    "DCLORC" := "Shopping",
    "DHLCRC" := "Health Care"]

  /** The category names, the values of `CategoryMap`. */
  const CategoryNames: set<string> := {"Food", "Housing", "Transportation", "Entertainment", "Shopping", "Health Care"}

  const NoDataMessage: string := "No data returned from BEA API"

  /** `f"No matching spending data found for categories: {categories}"` with the list's `repr`. */
  const NoMatchMessage: string :=
    "No matching spending data found for categories: ['DFXARC', 'DHUTRC', 'DTRSRC', 'DRCARC', 'DCLORC', 'DHLCRC']"

  /** Every failure inside the processing is re-raised with this prefix. */
  function ProcessingError(message: string): (e: Exc)
    ensures e.kind == ValueError
  {
    ValueErr("Error processing BEA data: " + message)
  }

  lemma CategoryMapShape()
    ensures CategoryMap.Keys == set c | c in SeriesCodes
    ensures CategoryMap.Values == CategoryNames
  {
    assert CategoryMap["DFXARC"] == "Food";
    assert CategoryMap["DHUTRC"] == "Housing";
    assert CategoryMap["DTRSRC"] == "Transportation";
    assert CategoryMap["DRCARC"] == "Entertainment";
    assert CategoryMap["DCLORC"] == "Shopping";
    assert CategoryMap["DHLCRC"] == "Health Care";
  }

  // ---------------------------------------------------------------------
  // Parsing `DataValue`

  /** `s.replace(",", "")` */
  function RemoveCommas(s: string): (r: string)
    ensures ',' !in r && |r| <= |s|
    ensures ',' !in s ==> r == s
  {
    if s == [] then []
    else (if s[0] == ',' then [] else [s[0]]) + RemoveCommas(s[1..])
  }

  /** Removing the commas keeps every other character, as often as it occurs. */
  lemma {:induction false} RemoveCommasKeepsOthers(s: string, c: char)
    requires c != ','
    ensures multiset(RemoveCommas(s))[c] == multiset(s)[c]
  {
    if s != [] {
      RemoveCommasKeepsOthers(s[1..], c);
      assert s == [s[0]] + s[1..];
    }
  }

  /** Removing commas piece by piece is removing them from the whole, so the order
      of the remaining characters is kept. */
  lemma {:induction false} RemoveCommasAppend(a: string, b: string)
    ensures RemoveCommas(a + b) == RemoveCommas(a) + RemoveCommas(b)
  {
    if a != [] {
      var head := if a[0] == ',' then [] else [a[0]];
      assert (a + b)[0] == a[0];
      assert (a + b)[1..] == a[1..] + b;
      RemoveCommasAppend(a[1..], b);
      assert RemoveCommas(a + b) == head + (RemoveCommas(a[1..]) + RemoveCommas(b));
      assert RemoveCommas(a) == head + RemoveCommas(a[1..]);
    } else {
      assert a + b == b;
    }
  }

  function Pow10(n: nat): (p: nat)
    ensures p >= 1
  {
    if n == 0 then 1 else 10 * Pow10(n - 1)
  }

  /** The position of the first `c` in `s`, or `|s|` when there is none. */
  function IndexOf(s: string, c: char): (i: nat)
    ensures i <= |s|
    ensures i < |s| ==> s[i] == c
    ensures c !in s[..i]
  {
    if s == [] then 0
    else if s[0] == c then 0
    else
      var j := IndexOf(s[1..], c);
      assert s[..1 + j] == [s[0]] + s[1..][..j];
      1 + j
  }

  /** The value of the digits after a decimal point: the first digit in tenths, the rest
      in tenths of a tenth, and so on. */
  function FractionValue(fraction: string): (v: real)
    requires Calendar.AllDigits(fraction)
    ensures 0.0 <= v
  {
    if fraction == [] then 0.0
    else (Calendar.DigitValue(fraction[0]) as real + FractionValue(fraction[1..])) / 10.0
  }

  /** The value of `whole.fraction` written in decimal digits. */
  function Magnitude(whole: string, fraction: string): (m: real)
    requires Calendar.AllDigits(whole) && Calendar.AllDigits(fraction)
    ensures m >= Calendar.DigitsValue(whole) as real >= 0.0
  {
    Calendar.DigitsValue(whole) as real + FractionValue(fraction)
  }

  /** `float(s)` for plain decimal text: an optional sign, digits, and an optional
      fractional part after a point, with at least one digit. */
  function ParseDecimal(s: string): (r: Option<real>)
    ensures r.Some? && s != [] && s[0] == '-' ==> r.value <= 0.0
    ensures r.Some? && (s == [] || s[0] != '-') ==> r.value >= 0.0
  {
    var negative := s != [] && s[0] == '-';
    var body := if s != [] && (s[0] == '-' || s[0] == '+') then s[1..] else s;
    match ParseUnsigned(body)
    case None => None
    case Some(magnitude) => Some(if negative then -magnitude else magnitude)
  }

  /** The unsigned part: digits with an optional fractional part, at least one digit. */
  function ParseUnsigned(body: string): (r: Option<real>)
    ensures r.Some? ==> r.value >= 0.0
  {
    var dot := IndexOf(body, '.');
    var whole := body[..dot];
    var fraction := if dot < |body| then body[dot + 1..] else [];
    if Calendar.AllDigits(whole) && Calendar.AllDigits(fraction) && |whole| + |fraction| > 0 then
      Some(Magnitude(whole, fraction))
    else
      None
  }

  /** The first `c` in `a + [c] + b` is the one after `a` when `a` has none. */
  lemma IndexOfAfter(a: string, c: char, b: string)
    requires c !in a
    ensures IndexOf(a + [c] + b, c) == |a|
  {
    var s := a + [c] + b;
    assert s[..|a| + 1][|a|] == c;
  }

  lemma DigitsHaveNoDot(whole: string)
    requires Calendar.AllDigits(whole)
    ensures '.' !in whole
  {
    forall i | 0 <= i < |whole|
      ensures whole[i] != '.'
    {
      assert Calendar.IsDigit(whole[i]);
    }
  }

  /** Stripping an optional sign from `sign + body` leaves `body` when it does not itself
      start with a sign. */
  lemma SignedValue(sign: string, body: string, m: real)
    requires sign == "" || sign == "-" || sign == "+"
    requires body == [] || (body[0] != '-' && body[0] != '+')
    requires ParseUnsigned(body) == Some(m)
    ensures ParseDecimal(sign + body) == Some(if sign == "-" then -m else m)
  {
    var s := sign + body;
    if sign == "" {
      assert s == body;
    } else {
      assert s[0] == sign[0] && s[1..] == body;
    }
    assert (s != [] && s[0] == '-') == (sign == "-");
    assert body == if s != [] && (s[0] == '-' || s[0] == '+') then s[1..] else s;
  }

  /** `digits.digits` is the value it spells. */
  lemma UnsignedDecimal(whole: string, fraction: string)
    requires Calendar.AllDigits(whole) && Calendar.AllDigits(fraction) && |whole| + |fraction| > 0
    ensures ParseUnsigned(whole + "." + fraction) == Some(Magnitude(whole, fraction))
    ensures (whole + "." + fraction)[0] != '-' && (whole + "." + fraction)[0] != '+'
  {
    var body := whole + "." + fraction;
    assert whole != [] ==> body[0] == whole[0] && Calendar.IsDigit(whole[0]);
    DigitsHaveNoDot(whole);
    IndexOfAfter(whole, '.', fraction);
    assert body[..|whole|] == whole;
    assert body[|whole| + 1..] == fraction;
  }

  /** Decimal text with a point, `[sign]digits.digits`, parses to the number it spells. */
  lemma ParseDecimalValue(sign: string, whole: string, fraction: string)
    requires sign == "" || sign == "-" || sign == "+"
    requires Calendar.AllDigits(whole) && Calendar.AllDigits(fraction) && |whole| + |fraction| > 0
    ensures var m := Magnitude(whole, fraction);
            ParseDecimal(sign + (whole + "." + fraction)) == Some(if sign == "-" then -m else m)
  {
    UnsignedDecimal(whole, fraction);
    SignedValue(sign, whole + "." + fraction, Magnitude(whole, fraction));
  }

  /** Writing the digits of `b` after those of `a` shifts `a` by one place per digit of `b`. */
  lemma {:induction false} DigitsValueAppend(a: string, b: string)
    requires Calendar.AllDigits(a) && Calendar.AllDigits(b)
    ensures Calendar.AllDigits(a + b)
    ensures Calendar.DigitsValue(a + b) == Calendar.DigitsValue(a) * Pow10(|b|) + Calendar.DigitsValue(b)
  {
    assert Calendar.AllDigits(a + b) by {
      forall i | 0 <= i < |a + b| ensures Calendar.IsDigit((a + b)[i]) {
        if i < |a| { assert (a + b)[i] == a[i]; } else { assert (a + b)[i] == b[i - |a|]; }
      }
    }
    if b != [] {
      var init := b[..|b| - 1];
      assert Calendar.AllDigits(init) by {
        forall i | 0 <= i < |init| ensures Calendar.IsDigit(init[i]) { assert init[i] == b[i]; }
      }
      assert (a + b)[..|a + b| - 1] == a + init;
      assert (a + b)[|a + b| - 1] == b[|b| - 1];
      DigitsValueAppend(a, init);
      assert Pow10(|b|) == 10 * Pow10(|init|);
      ShiftDigit(Calendar.DigitsValue(a), Pow10(|init|), Calendar.DigitsValue(init), Calendar.DigitValue(b[|b| - 1]));
    } else {
      assert a + b == a;
    }
  }

  /** One more digit after `a`'s shifted value and `init`'s. */
  lemma ShiftDigit(a: nat, p: nat, init: nat, digit: nat)
    ensures (a * p + init) * 10 + digit == a * (10 * p) + (init * 10 + digit)
  {
    assert (a * p) * 10 == a * (10 * p);
  }

  /** The fraction digits are the number they spell over ten to their number. */
  lemma {:induction false} FractionScaled(fraction: string)
    requires Calendar.AllDigits(fraction)
    ensures FractionValue(fraction) == Calendar.DigitsValue(fraction) as real / Pow10(|fraction|) as real
  {
    if fraction != [] {
      var first := fraction[..1];
      var rest := fraction[1..];
      assert fraction == first + rest;
      assert Calendar.AllDigits(rest) by {
        forall i | 0 <= i < |rest| ensures Calendar.IsDigit(rest[i]) { assert rest[i] == fraction[i + 1]; }
      }
      FractionScaled(rest);
      DigitsValueAppend(first, rest);
      assert Calendar.DigitsValue(first) == Calendar.DigitValue(fraction[0]) by {
        assert first[..0] == [];
      }
      assert Pow10(|fraction|) == 10 * Pow10(|rest|);
      ShiftFraction(Calendar.DigitValue(fraction[0]), FractionValue(rest), Pow10(|rest|),
                    Calendar.DigitsValue(rest));
    }
  }

  /** One more leading digit `d` of a fraction whose rest is `n / p`. */
  lemma ShiftFraction(d: nat, v: real, p: nat, n: nat)
    requires p >= 1 && v == n as real / p as real
    ensures (d as real + v) / 10.0 == (d * p + n) as real / (10 * p) as real
  {
    assert v * p as real == n as real;
    assert (d as real + v) * p as real == (d * p + n) as real by {
      assert (d * p) as real == d as real * p as real;
    }
    assert (10 * p) as real == 10.0 * p as real;
  }

  /** `Magnitude` is the value `whole.fraction` spells: the number the digits spell once the
      point is removed, over ten to the number of fraction digits. */
  lemma MagnitudeSpelled(whole: string, fraction: string)
    requires Calendar.AllDigits(whole) && Calendar.AllDigits(fraction)
    ensures Calendar.AllDigits(whole + fraction)
    ensures Magnitude(whole, fraction)
            == Calendar.DigitsValue(whole + fraction) as real / Pow10(|fraction|) as real
  {
    DigitsValueAppend(whole, fraction);
    FractionScaled(fraction);
    ScaleBack(Calendar.DigitsValue(whole), FractionValue(fraction), Calendar.DigitsValue(fraction),
              Pow10(|fraction|), Calendar.DigitsValue(whole + fraction));
  }

  /** `w + f / p` is `d / p` when `d == w * p + f`. */
  lemma ScaleBack(w: nat, v: real, f: nat, p: nat, d: nat)
    requires p >= 1 && v == f as real / p as real && d == w * p + f
    ensures w as real + v == d as real / p as real
  {
    var pr := p as real;
    assert v * pr == f as real;
    assert d as real == w as real * pr + f as real by {
      assert (w * p) as real == w as real * pr;
    }
    assert (w as real + v) * pr == w as real * pr + v * pr;
  }

  /** Decimal text without a point, `[sign]digits`, parses to the whole number it spells. */
  lemma ParseIntegerValue(sign: string, whole: string)
    requires sign == "" || sign == "-" || sign == "+"
    requires Calendar.AllDigits(whole) && whole != []
    ensures ParseDecimal(sign + whole)
         == Some(if sign == "-" then -(Calendar.DigitsValue(whole) as real) else Calendar.DigitsValue(whole) as real)
  {
    var n := Calendar.DigitsValue(whole) as real;
    UnsignedInteger(whole);
    assert Calendar.IsDigit(whole[0]);
    SignedValue(sign, whole, n);
  }

  /** Digits without a point are the whole number they spell. */
  lemma UnsignedInteger(whole: string)
    requires Calendar.AllDigits(whole) && whole != []
    ensures ParseUnsigned(whole) == Some(Calendar.DigitsValue(whole) as real)
  {
    DigitsHaveNoDot(whole);
    assert IndexOf(whole, '.') == |whole|;
    assert whole[..|whole|] == whole;
    assert ParseUnsigned(whole) == Some(Magnitude(whole, []));
  }

  const FloatErrorPrefix: string := "could not convert string to float: "

  /** `str(e)` of the `ValueError` that `float(text)` raises: the prefix, then the text quoted. */
  function FloatErrorMessage(text: string): (m: string)
    ensures |m| == |FloatErrorPrefix| + |text| + 2
    ensures m[..|FloatErrorPrefix|] == FloatErrorPrefix
    ensures m[|FloatErrorPrefix|] == m[|m| - 1] && m[|m| - 1] in {'\'', '"'}
    ensures m[|FloatErrorPrefix| + 1..|m| - 1] == text
  {
    var q := Repr(text);
    assert (FloatErrorPrefix + q)[|FloatErrorPrefix|..] == q;
    FloatErrorPrefix + q
  }

  /** A thousands separator between two comma-free pieces is dropped and the pieces joined. */
  lemma RemoveGroupingComma(a: string, b: string)
    requires ',' !in a && ',' !in b
    ensures RemoveCommas(a + [','] + b) == a + b
  {
    var comma := [','];
    assert comma[1..] == [];
    assert RemoveCommas(comma) == [];
    RemoveCommasAppend(a, comma);
    RemoveCommasAppend(a + comma, b);
    assert RemoveCommas(a + comma) == a;
  }

  /** The grouping commas of BEA's values disappear before parsing. */
  lemma RemoveCommasExample()
    ensures RemoveCommas("1,234.5") == "1234.5"
  {
    var a, b := "1", "234.5";
    assert "1,234.5" == a + [','] + b;
    assert b[0] != ',' && b[1] != ',' && b[2] != ',' && b[3] != ',' && b[4] != ',';
    RemoveGroupingComma(a, b);
    assert a + b == "1234.5";
  }

  lemma DigitsValueExample()
    ensures Calendar.DigitsValue("1234") == 1234 && Calendar.DigitsValue("5") == 5
  {
    assert "1234"[..3] == "123";
    assert "123"[..2] == "12";
    assert "12"[..1] == "1";
    assert "5"[..0] == "";
  }

  lemma ParsePlainExample()
    ensures ParseDecimal("1234.5") == Some(1234.5)
  {
    DigitsValueExample();
    var s := "1234.5";
    assert IndexOf(s, '.') == 4 by {
      assert s[0] != '.' && s[1] != '.' && s[2] != '.' && s[3] != '.' && s[4] == '.';
      assert IndexOf(s[4..], '.') == 0;
      assert s[4..] == s[1..][1..][1..][1..];
    }
    var whole := s[..4];
    var fraction := s[5..];
    assert whole == "1234";
    assert fraction == "5";
    assert Calendar.AllDigits(whole);
    assert Calendar.AllDigits(fraction);
    assert FractionValue(fraction) == 0.5 by {
      assert fraction[1..] == [];
    }
  }

  /** "1,234.5" becomes 1234.5. */
  lemma ParseDecimalExample()
    ensures ParseDecimal(RemoveCommas("1,234.5")) == Some(1234.5)
  {
    RemoveCommasExample();
    ParsePlainExample();
  }

  /** A value that still holds a comma is not a number. */
  lemma ParseRejectsComma()
    ensures ParseDecimal("15,027.3") == None
  {
    var s := "15,027.3";
    var dot := IndexOf(s, '.');
    assert s[0] != '.' && s[1] != '.' && s[2] != '.';
    assert dot >= 3;
    var whole := s[..dot];
    assert whole[2] == ',';
    assert !Calendar.AllDigits(whole);
  }

  /** A BEA footnote marker is not a number. */
  lemma ParseRejectsMarker()
    ensures ParseDecimal("(NA)") == None
  {
    var s := "(NA)";
    var dot := IndexOf(s, '.');
    assert '.' !in s;
    assert dot == 4;
    assert s[..dot] == s;
    assert !Calendar.IsDigit(s[0]);
  }

  // ---------------------------------------------------------------------
  // The item loop

  /** `float(item["DataValue"].replace(",", ""))`, or nothing when `float` raises. */
  function ItemAmount(item: BeaItem): Option<real>
  {
    ParseDecimal(RemoveCommas(item.dataValue))
  }

  /** The items whose series code `category_map` knows, in order. */
  function MappedItems(items: seq<BeaItem>): (m: seq<BeaItem>)
    ensures |m| <= |items|
    ensures forall it :: it in m <==> it in items && it.seriesCode in CategoryMap
  {
    if items == [] then []
    else
      var init := items[..|items| - 1];
      var last := items[|items| - 1];
      assert items == init + [last];
      if last.seriesCode in CategoryMap then MappedItems(init) + [last] else MappedItems(init)
  }

  /** The row a mapped item becomes: its category name, its parsed value, its quarter. */
  function RowOf(item: BeaItem): (row: SpendingRow)
    requires item.seriesCode in CategoryMap && ItemAmount(item).Some?
    ensures row.category in CategoryNames
  {
    CategoryMapShape();
    SpendingRow(CategoryMap[item.seriesCode], ItemAmount(item).value, item.timePeriod)
  }

  /** The rows the loop keeps from `items`, in order, or the text of the first parse failure:
      one row per mapped item, and a failure exactly when some mapped item's value does not parse. */
  function KeptRows(items: seq<BeaItem>): (r: Result<seq<SpendingRow>, string>)
    ensures r.Ok? <==> forall it :: it in MappedItems(items) ==> ItemAmount(it).Some?
    ensures r.Ok? ==> |r.value| == |MappedItems(items)|
    ensures r.Ok? ==> forall j :: 0 <= j < |r.value| ==> r.value[j] == RowOf(MappedItems(items)[j])
    ensures r.Ok? ==> forall row :: row in r.value ==> row.category in CategoryNames
  {
    if items == [] then Ok([])
    else
      var init := items[..|items| - 1];
      var item := items[|items| - 1];
      match KeptRows(init)
      case Err(message) => Err(message)
      case Ok(rows) =>
        if item.seriesCode in CategoryMap then
          var text := RemoveCommas(item.dataValue);
          match ParseDecimal(text)
          case None =>
            assert item in MappedItems(items);
            Err(FloatErrorMessage(text))
          case Some(amount) => Ok(rows + [RowOf(item)])
        else Ok(rows)
  }

  /** The sum the grouping gives category `c`: the parsed values of the items whose series
      code maps to `c`. */
  function CategoryTotal(items: seq<BeaItem>, c: string): real
  {
    if items == [] then 0.0
    else
      var last := items[|items| - 1];
      CategoryTotal(items[..|items| - 1], c)
      + if last.seriesCode in CategoryMap && CategoryMap[last.seriesCode] == c && ItemAmount(last).Some?
        then ItemAmount(last).value else 0.0
  }

  /** Some item's series code maps to category `c`. */
  predicate HasCategory(items: seq<BeaItem>, c: string)
  {
    exists it :: it in items && it.seriesCode in CategoryMap && CategoryMap[it.seriesCode] == c
  }

  /** The loop keeps nothing exactly when no item carries a mapped series code. */
  lemma {:induction false} KeptRowsEmpty(items: seq<BeaItem>)
    requires KeptRows(items).Ok?
    ensures KeptRows(items).value == [] <==> forall i :: 0 <= i < |items| ==> items[i].seriesCode !in CategoryMap
  {
    if items != [] {
      var init := items[..|items| - 1];
      KeptRowsEmpty(init);
      forall i | 0 <= i < |init|
        ensures init[i] == items[i]
      {
      }
    }
  }

  /** Once an item fails to parse, the loop's outcome is that failure. */
  lemma {:induction false} KeptRowsFailureSticks(items: seq<BeaItem>, i: nat)
    requires i <= |items| && KeptRows(items[..i]).Err?
    ensures KeptRows(items) == KeptRows(items[..i])
    decreases |items|
  {
    if i < |items| {
      var init := items[..|items| - 1];
      assert init[..i] == items[..i];
      KeptRowsFailureSticks(init, i);
    } else {
      assert items[..i] == items;
    }
  }

  /** The (category, amount) pairs of the kept rows. */
  function CategoryAmounts(rows: seq<SpendingRow>): (d: Dict<real>)
    ensures Keys(d) == seq(|rows|, j requires 0 <= j < |rows| => rows[j].category)
  {
    seq(|rows|, j requires 0 <= j < |rows| => (rows[j].category, rows[j].amount))
  }

  /** Grouping kept rows gives a non-empty dict over the BEA category names. */
  lemma GroupedCategories(rows: seq<SpendingRow>)
    requires rows != [] && forall row :: row in rows ==> row.category in CategoryNames
    ensures var grouped := GroupSum(CategoryAmounts(rows));
            && IsDict(grouped) && grouped != []
            && forall c :: c in Keys(grouped) ==> c in CategoryNames
  {
    var pairs := CategoryAmounts(rows);
    GroupSumIsDict(pairs);
    assert Keys(pairs)[0] == rows[0].category;
    GroupSumKeys(pairs, rows[0].category);
    forall c | c in Keys(GroupSum(pairs))
      ensures c in CategoryNames
    {
      GroupSumKeys(pairs, c);
    }
  }

  /** The loop of `get_bea_spending_data` over the returned items: the rows of the mapped
      series codes in order, or the text of the first `float()` failure. */
  method KeepMappedRows(items: seq<BeaItem>) returns (r: Result<seq<SpendingRow>, string>)
    ensures r == KeptRows(items)
  {
    var rows: seq<SpendingRow> := [];
    var i := 0;
    while i < |items|
      invariant 0 <= i <= |items|
      invariant KeptRows(items[..i]) == Ok(rows)
    {
      var item := items[i];
      assert items[..i + 1][..i] == items[..i];
      if item.seriesCode in CategoryMap {
        var text := RemoveCommas(item.dataValue);
        var amount := ParseDecimal(text);
        if amount.None? {
          KeptRowsFailureSticks(items, i + 1);
          return Err(FloatErrorMessage(text));
        }
        rows := rows + [SpendingRow(CategoryMap[item.seriesCode], amount.value, item.timePeriod)];
      }
      i := i + 1;
    }
    assert items[..i] == items;
    return Ok(rows);
  }

  lemma CategoryAmountsAppend(rows: seq<SpendingRow>, row: SpendingRow)
    ensures CategoryAmounts(rows + [row]) == CategoryAmounts(rows) + [(row.category, row.amount)]
  {
  }

  /** Category `c`'s entry in the (category, amount) pairs of the kept rows totals the parsed
      values of the items whose series code maps to `c`. */
  lemma {:induction false} KeptRowsCategoryTotal(items: seq<BeaItem>, c: string)
    requires KeptRows(items).Ok?
    ensures AmountFor(CategoryAmounts(KeptRows(items).value), c) == CategoryTotal(items, c)
  {
    if items != [] {
      var init := items[..|items| - 1];
      var last := items[|items| - 1];
      var kept := KeptRows(items).value;
      assert KeptRows(init).Ok?;
      var rows := KeptRows(init).value;
      KeptRowsCategoryTotal(init, c);
      if last.seriesCode in CategoryMap {
        var row := RowOf(last);
        assert kept == rows + [row];
        CategoryAmountsAppend(rows, row);
        AmountForAppend(CategoryAmounts(rows), (row.category, row.amount), c);
      } else {
        assert kept == rows;
      }
    }
  }

  /** A category appears among the kept rows exactly when some item's series code maps to it. */
  lemma KeptRowsCategories(items: seq<BeaItem>, c: string)
    requires KeptRows(items).Ok?
    ensures c in Keys(CategoryAmounts(KeptRows(items).value)) <==> HasCategory(items, c)
  {
    if c in Keys(CategoryAmounts(KeptRows(items).value)) {
      KeptCategoryHasItem(items, c);
    }
    if HasCategory(items, c) {
      MappedCategoryKept(items, c);
    }
  }

  lemma KeptCategoryHasItem(items: seq<BeaItem>, c: string)
    requires KeptRows(items).Ok?
    requires c in Keys(CategoryAmounts(KeptRows(items).value))
    ensures HasCategory(items, c)
  {
    var rows := KeptRows(items).value;
    var m := MappedItems(items);
    var keys := Keys(CategoryAmounts(rows));
    var j := PositionOf(keys, c);
    assert rows[j] == RowOf(m[j]);
    assert m[j] in m;
  }

  lemma MappedCategoryKept(items: seq<BeaItem>, c: string)
    requires KeptRows(items).Ok?
    requires HasCategory(items, c)
    ensures c in Keys(CategoryAmounts(KeptRows(items).value))
  {
    var rows := KeptRows(items).value;
    var m := MappedItems(items);
    var it :| it in items && it.seriesCode in CategoryMap && CategoryMap[it.seriesCode] == c;
    assert it in m;
    var j := PositionOf(m, it);
    assert rows[j] == RowOf(it);
    CategoryAtRow(rows, j);
  }

  /** Where an element of `m` sits in it. */
  function PositionOf<T(==)>(m: seq<T>, x: T): (j: nat)
    requires x in m
    ensures j < |m| && m[j] == x
  {
    if m[0] == x then 0 else 1 + PositionOf(m[1..], x)
  }

  /** Every kept row's category is a key of the amounts. */
  lemma CategoryAtRow(rows: seq<SpendingRow>, j: nat)
    requires j < |rows|
    ensures rows[j].category in Keys(CategoryAmounts(rows))
  {
    assert Keys(CategoryAmounts(rows))[j] == rows[j].category;
  }

  /** What the BEA fetch reports per category: the total of the parsed values of the items
      whose series code maps to it, and nothing for a category no item maps to. */
  lemma BeaCategorySums(items: seq<BeaItem>, c: string)
    requires KeptRows(items).Ok?
    ensures var grouped := GroupSum(CategoryAmounts(KeptRows(items).value));
            && (HasCategory(items, c) ==> Get(grouped, c) == Some(CategoryTotal(items, c)))
            && (!HasCategory(items, c) ==> Get(grouped, c) == None)
  {
    KeptRowsCategories(items, c);
    KeptRowsCategoryTotal(items, c);
    GroupSumLookup(CategoryAmounts(KeptRows(items).value), c);
  }

  /** `get_bea_spending_data`: the per-category sums across quarters, or the `ValueError` raised. */
  method GetBeaSpendingData(reply: BeaReply) returns (r: Result<Dict<real>, Exc>)
    ensures reply.RequestFailed? ==> r == Err(ValueErr("Error fetching BEA data: " + reply.message))
    ensures reply.MissingKey? ==> r == Err(ProcessingError("'" + reply.key + "'"))
    ensures reply == Fetched([]) ==> r == Err(ProcessingError(NoDataMessage))
    ensures reply.Fetched? && reply.items != [] ==>
              match KeptRows(reply.items)
              case Err(message) => r == Err(ProcessingError(message))
              case Ok(rows) => r == if rows == [] then Err(ProcessingError(NoMatchMessage))
                                    else Ok(GroupSum(CategoryAmounts(rows)))
    ensures r.Err? ==> r.error.kind == ValueError
    ensures r.Ok? ==> IsDict(r.value) && r.value != []
    ensures r.Ok? ==> forall c :: c in Keys(r.value) ==> c in CategoryNames
    ensures r.Ok? ==> reply.Fetched? && forall c :: HasCategory(reply.items, c) ==> Get(r.value, c) == Some(CategoryTotal(reply.items, c))
  {
    match reply
    case RequestFailed(message) =>
      return Err(ValueErr("Error fetching BEA data: " + message));
    case MissingKey(key) =>
      return Err(ProcessingError("'" + key + "'"));
    case Fetched(items) =>
      if items == [] {
        return Err(ProcessingError(NoDataMessage));
      }
      var kept := KeepMappedRows(items);
      if kept.Err? {
        return Err(ProcessingError(kept.error));
      }
      var rows := kept.value;
      if rows == [] {
        return Err(ProcessingError(NoMatchMessage));
      }
      GroupedCategories(rows);
      forall c | HasCategory(items, c)
        ensures Get(GroupSum(CategoryAmounts(rows)), c) == Some(CategoryTotal(items, c))
      {
        BeaCategorySums(items, c);
      }
      return Ok(GroupSum(CategoryAmounts(rows)));
  }

  /** Summing across quarters loses nothing: the output totals the amounts of all kept rows. */
  lemma BeaTotal(rows: seq<SpendingRow>)
    ensures SumValues(GroupSum(CategoryAmounts(rows))) == SumValues(CategoryAmounts(rows))
  {
    GroupSumTotal(CategoryAmounts(rows));
  }
}
