/**
  The shared helpers of `src/utils/helper.ts`: the option lists of the
  establishment-date selects, the free-form establishment date, query-string
  building, image paths and prefecture names.
  The current year (read from the clock in the source) is a parameter.
*/
module Helper {
  import opened Wrappers
  import opened Text
  import opened Js
  import opened Types
  import Constants
  import Seqs

  // ------------------------------------------------------------ year options

  /**
    `getEstablishmentYearOptions()`: a placeholder `年` with value "0", then the
    149 years before `currentYear`, newest first.
  */
  function EstablishmentYearOptions(currentYear: int): (r: seq<PickOption>)
    ensures |r| == 150
  {
    seq(150, i requires 0 <= i < 150 =>
      if i != 0 then PickOption(IntToString(currentYear - i), IntToString(currentYear - i))
      else PickOption("0", "年"))
  }

  /**
    Every year entry reads back as the year `i` years ago and shows its own value;
    the current year itself is never offered.
  */
  lemma EstablishmentYearOptionsValues(currentYear: int)
    ensures EstablishmentYearOptions(currentYear)[0] == PickOption("0", "年")
    ensures forall i | 1 <= i < 150 ::
      ToNumber(EstablishmentYearOptions(currentYear)[i].value) == Int(currentYear - i)
      && EstablishmentYearOptions(currentYear)[i].option == EstablishmentYearOptions(currentYear)[i].value
    ensures forall i | 1 <= i < 150 :: EstablishmentYearOptions(currentYear)[i].value != IntToString(currentYear)
  {
    var r := EstablishmentYearOptions(currentYear);
    forall i | 1 <= i < 150
      ensures ToNumber(r[i].value) == Int(currentYear - i)
      ensures r[i].value != IntToString(currentYear)
    {
      ToNumberOfIntToString(currentYear - i);
      IntToStringInjective(currentYear - i, currentYear);
    }
  }

  // ------------------------------------------------------------ day options

  /** The year `new Date(y, m)` uses: two-digit years 0..99 mean 1900..1999. */
  function DateYear(y: int): (r: int)
    ensures 0 <= y <= 99 ==> r == 1900 + y
    ensures !(0 <= y <= 99) ==> r == y
  {
    if 0 <= y <= 99 then 1900 + y else y
  }

  predicate IsLeapYear(y: int)
  {
    y % 4 == 0 && (y % 100 != 0 || y % 400 == 0)
  }

  /** The number of days of a month of the proleptic Gregorian calendar (`month0` counts from 0). */
  function DaysInMonth(year: int, month0: int): (d: nat)
    requires 0 <= month0 < 12
    ensures 28 <= d <= 31
    ensures month0 == 1 ==> (d == 29 <==> IsLeapYear(year))
    ensures month0 != 1 ==> (d == 30 <==> month0 in {3, 5, 8, 10})
  {
    if month0 == 1 then (if IsLeapYear(year) then 29 else 28)
    else if month0 in {3, 5, 8, 10} then 30
    else 31
  }

  /**
    `lastDayOfMonth(new Date(year, month0)).getDate()`: the month index may fall
    outside 0..11 and carries into the year (`new Date(2024, -1)` is December 2023);
    a NaN argument makes an invalid date, whose day is NaN.
  */
  function LastDayOfMonth(year: Number, month0: Number): (r: Number)
    ensures r.NaN? <==> year.NaN? || month0.NaN?
    ensures r.Int? ==> 28 <= r.v <= 31
  {
    if year.NaN? || month0.NaN? then NaN
    else Int(DaysInMonth(DateYear(year.v) + month0.v / 12, month0.v % 12))
  }

  /** `x - 1` on numbers. */
  function Pred(x: Number): (r: Number)
    ensures r.NaN? <==> x.NaN?
    ensures x.Int? ==> r.v == x.v - 1
  {
    if x.NaN? then NaN else Int(x.v - 1)
  }

  /** The length `Array.from({ length })` gives for the day count (NaN gives an empty array). */
  function DayCount(year: Number, month: Number): (n: nat)
  {
    var last := LastDayOfMonth(year, Pred(month));
    if last.Int? then last.v else 0
  }

  /**
    `getEstablishmentDateOptions(year, month)` as written: one entry per day of the
    month, but the first slot holds the placeholder `日`, so the days offered are
    2..last.
  */
  function EstablishmentDateOptions(year: Number, month: Number): (r: seq<PickOption>)
  {
    var n := DayCount(year, month);
    seq(n, i requires 0 <= i < n =>
      if i != 0 then PickOption(NatToString(i + 1), NatToString(i + 1)) else PickOption("0", "日"))
  }

  /** The list is as long as the month (28 to 31 entries), and empty for a NaN year or month. */
  lemma EstablishmentDateOptionsLength(year: Number, month: Number)
    ensures |EstablishmentDateOptions(year, month)| == 0 <==> year.NaN? || month.NaN?
    ensures year.Int? && month.Int? ==>
      28 <= |EstablishmentDateOptions(year, month)| <= 31
      && |EstablishmentDateOptions(year, month)| == DaysInMonth(DateYear(year.v) + (month.v - 1) / 12, (month.v - 1) % 12)
  {
  }

  /** As written, day 1 is never offered although every month has one. */
  lemma EstablishmentDateOptionsMissDayOne(year: Number, month: Number)
    ensures forall i | 0 <= i < |EstablishmentDateOptions(year, month)| ::
      ToNumber(EstablishmentDateOptions(year, month)[i].value) != Int(1)
  {
    var r := EstablishmentDateOptions(year, month);
    forall i | 0 <= i < |r|
      ensures ToNumber(r[i].value) != Int(1)
    {
      if i != 0 {
        ToNumberOfIntToString(i + 1);
      } else {
        ToNumberOfIntToString(0);
      }
    }
  }

  /** January 2024: 31 entries, the last "31", and no "1" among them. */
  lemma EstablishmentDateOptionsJanuary()
    ensures |EstablishmentDateOptions(Int(2024), Int(1))| == 31
    ensures EstablishmentDateOptions(Int(2024), Int(1))[0] == PickOption("0", "日")
    ensures EstablishmentDateOptions(Int(2024), Int(1))[30].value == "31"
    ensures forall i | 0 <= i < 31 :: EstablishmentDateOptions(Int(2024), Int(1))[i].value != "1"
  {
    var r := EstablishmentDateOptions(Int(2024), Int(1));
    EstablishmentDateOptionsMissDayOne(Int(2024), Int(1));
    assert NatToString(31) == "31";
    forall i | 0 <= i < 31
      ensures r[i].value != "1"
    {
      assert ToNumber("1") == Int(1) by {
        assert NatToString(1) == "1";
        ToNumberOfIntToString(1);
      }
    }
  }

  /**
    The day options the date select evidently intends: the placeholder `日`, then
    every day 1..last of the month.
  */
  function DayOptions(year: Number, month: Number): (r: seq<PickOption>)
    ensures |r| == if DayCount(year, month) == 0 then 0 else DayCount(year, month) + 1
  {
    var n := DayCount(year, month);
    if n == 0 then []
    else [PickOption("0", "日")] + seq(n, i requires 0 <= i < n => PickOption(NatToString(i + 1), NatToString(i + 1)))
  }

  /** Every day of the month is offered, at the position of its number, and nothing else is. */
  lemma DayOptionsOfferEveryDay(year: Number, month: Number)
    ensures year.Int? && month.Int? ==> DayOptions(year, month)[0] == PickOption("0", "日")
    ensures forall d | 1 <= d <= DayCount(year, month) ::
      ToNumber(DayOptions(year, month)[d].value) == Int(d)
      && DayOptions(year, month)[d].option == DayOptions(year, month)[d].value
    ensures forall i | 1 <= i < |DayOptions(year, month)| ::
      ToNumber(DayOptions(year, month)[i].value) == Int(i)
  {
    var r := DayOptions(year, month);
    forall d | 1 <= d <= DayCount(year, month)
      ensures ToNumber(r[d].value) == Int(d)
    {
      ToNumberOfIntToString(d);
    }
  }

  /**
    The corrected list is the as-written one with day 1 put back: the placeholder,
    then "1", then the as-written days 2..last.
  */
  lemma DayOptionsInsertDayOne(year: Number, month: Number)
    ensures var written := EstablishmentDateOptions(year, month);
      DayOptions(year, month) ==
        if written == [] then [] else written[..1] + [PickOption("1", "1")] + written[1..]
  {
    var written := EstablishmentDateOptions(year, month);
    var r := DayOptions(year, month);
    if written != [] {
      var e := written[..1] + [PickOption("1", "1")] + written[1..];
      assert NatToString(1) == "1";
      assert |r| == |e|;
      forall i | 0 <= i < |r|
        ensures r[i] == e[i]
      {
        if i >= 2 {
          assert e[i] == written[i - 1];
        }
      }
    }
  }

  // -------------------------------------------------------- free-form date

  /** One part of `formatFlexibleDate`: the number followed by its unit, or nothing for a missing part. */
  function DatePart(x: Option<Number>, unit: char): string
  {
    match x
    case None => ""
    case Some(n) => NumberToString(n) + [unit]
  }

  /**
    `formatFlexibleDate(year, month, day)`: each present part followed by `年`, `月`
    or `日`; `null` and `undefined` parts (both `None` here) are skipped, while 0
    and NaN are written out.
  */
  function FormatFlexibleDate(year: Option<Number>, month: Option<Number>, day: Option<Number>): string
  {
    DatePart(year, '年') + DatePart(month, '月') + DatePart(day, '日')
  }

  /** Takes the number before the first `unit`, if there is one, and the text after it. */
  function TakeDatePart(s: string, unit: char): (Option<Number>, string)
  {
    if unit in s then
      var k := IndexOfChar(s, unit);
      (Some(ToNumber(s[..k])), s[k + 1..])
    else (None, s)
  }

  /** Reads a free-form date back into its parts. */
  function ParseFlexibleDate(s: string): (Option<Number>, Option<Number>, Option<Number>)
  {
    var (y, r1) := TakeDatePart(s, '年');
    var (m, r2) := TakeDatePart(r1, '月');
    var (d, _) := TakeDatePart(r2, '日');
    (y, m, d)
  }

  /** The rendering of a number holds only digits, a minus sign, or the letters of "NaN". */
  lemma NumberToStringChars(n: Number)
    ensures forall c | c in NumberToString(n) :: IsDigit(c) || c == '-' || c == 'N' || c == 'a'
  {
    if n.Int? {
      IntToStringChars(n.v);
    }
  }

  lemma ToNumberOfNumberToString(n: Number)
    ensures ToNumber(NumberToString(n)) == n
  {
    if n.Int? {
      ToNumberOfIntToString(n.v);
    } else {
      assert Trim("NaN") == "NaN";
    }
  }

  /** A part holds no unit character other than its own. */
  lemma DatePartUnits(x: Option<Number>, unit: char, other: char)
    requires other == '年' || other == '月' || other == '日'
    requires other != unit
    ensures other !in DatePart(x, unit)
  {
    if x.Some? {
      NumberToStringChars(x.value);
    }
  }

  lemma TakeDatePartOf(x: Option<Number>, unit: char, rest: string)
    requires unit == '年' || unit == '月' || unit == '日'
    requires x.None? ==> unit !in rest
    ensures TakeDatePart(DatePart(x, unit) + rest, unit) == (x, rest)
  {
    if x.Some? {
      var t := NumberToString(x.value);
      NumberToStringChars(x.value);
      var s := DatePart(x, unit) + rest;
      assert s == t + [unit] + rest;
      assert s[..|t|] == t;
      IndexOfCharAt(s, unit, |t|);
      ToNumberOfNumberToString(x.value);
      assert s[|t| + 1..] == rest;
    } else {
      assert DatePart(x, unit) + rest == rest;
    }
  }

  /** Reading a formatted date back gives the parts it was made from. */
  lemma FlexibleDateRoundTrip(year: Option<Number>, month: Option<Number>, day: Option<Number>)
    ensures ParseFlexibleDate(FormatFlexibleDate(year, month, day)) == (year, month, day)
  {
    var m := DatePart(month, '月');
    var d := DatePart(day, '日');
    YearStep(year, month, day);
    MonthStep(month, day);
    DayStep(day);
    ParseOfSteps(FormatFlexibleDate(year, month, day), m + d, d, year, month, day);
  }

  /** The year is taken off the front, leaving the month and day parts. */
  lemma YearStep(year: Option<Number>, month: Option<Number>, day: Option<Number>)
    ensures TakeDatePart(FormatFlexibleDate(year, month, day), '年') == (year, DatePart(month, '月') + DatePart(day, '日'))
  {
    var m := DatePart(month, '月');
    var d := DatePart(day, '日');
    DatePartUnits(month, '月', '年');
    DatePartUnits(day, '日', '年');
    assert FormatFlexibleDate(year, month, day) == DatePart(year, '年') + (m + d);
    TakeDatePartOf(year, '年', m + d);
  }

  /** The month is taken off the front, leaving the day part. */
  lemma MonthStep(month: Option<Number>, day: Option<Number>)
    ensures TakeDatePart(DatePart(month, '月') + DatePart(day, '日'), '月') == (month, DatePart(day, '日'))
  {
    DatePartUnits(day, '日', '月');
    TakeDatePartOf(month, '月', DatePart(day, '日'));
  }

  /** The day part reads back as the day. */
  lemma DayStep(day: Option<Number>)
    ensures TakeDatePart(DatePart(day, '日'), '日').0 == day
  {
    var d := DatePart(day, '日');
    assert d == d + "";
    TakeDatePartOf(day, '日', "");
  }

  /** The parse is assembled from its three steps. */
  lemma ParseOfSteps(s: string, r1: string, r2: string, y: Option<Number>, mo: Option<Number>, dd: Option<Number>)
    requires TakeDatePart(s, '年') == (y, r1) && TakeDatePart(r1, '月') == (mo, r2) && TakeDatePart(r2, '日').0 == dd
    ensures ParseFlexibleDate(s) == (y, mo, dd)
  {
  }

  // ------------------------------------------------------------ query string

  /**
    What `toQueryString` keeps of one parameter: an array as `[a,b,…]`, `undefined`
    and `null` dropped, anything else as `String(v)`.
  */
  function QueryValue(v: Value): (r: Option<string>)
    ensures r.None? <==> v.Undefined? || v.Null?
  {
    match v
    case Undefined => None
    case Null => None
    case Arr(_) => Some("[" + ToJsString(v) + "]")
    case _ => Some(ToJsString(v))
  }

  /** The record `toQueryString` hands to `URLSearchParams`, in the order of the parameters. */
  function QueryPairs(params: seq<(string, Value)>): (r: seq<(string, string)>)
    ensures |r| <= |params|
    decreases |params|
  {
    if params == [] then []
    else
      var rest := QueryPairs(params[1..]);
      match QueryValue(params[0].1)
      case None => rest
      case Some(s) => [(params[0].0, s)] + rest
  }

  /** A key appears in the query with text `s` exactly when some parameter of that key renders as `s`. */
  lemma {:induction false} QueryPairsMembership(params: seq<(string, Value)>, key: string, s: string)
    ensures (key, s) in QueryPairs(params) <==>
      exists i | 0 <= i < |params| :: params[i].0 == key && QueryValue(params[i].1) == Some(s)
    decreases |params|
  {
    if params != [] {
      QueryPairsMembership(params[1..], key, s);
      if (key, s) in QueryPairs(params[1..]) {
        var i :| 0 <= i < |params[1..]| && params[1..][i].0 == key && QueryValue(params[1..][i].1) == Some(s);
        assert params[i + 1] == params[1..][i];
      }
      if exists i | 0 <= i < |params| :: params[i].0 == key && QueryValue(params[i].1) == Some(s) {
        var i :| 0 <= i < |params| && params[i].0 == key && QueryValue(params[i].1) == Some(s);
        if i > 0 {
          assert params[1..][i - 1] == params[i];
        }
      }
    }
  }

  /** `name=value` pieces, each side passed through the form encoder. */
  function QueryPieces(pairs: seq<(string, string)>, encode: string -> string): (r: seq<string>)
    ensures |r| == |pairs|
    ensures forall i | 0 <= i < |pairs| :: r[i] == encode(pairs[i].0) + "=" + encode(pairs[i].1)
  {
    seq(|pairs|, i requires 0 <= i < |pairs| => encode(pairs[i].0) + "=" + encode(pairs[i].1))
  }

  /**
    `toQueryString(params)`: the kept parameters as `name=value` joined by `&`.
    The percent-encoding of `URLSearchParams` is the parameter `encode`.
  */
  function ToQueryString(params: seq<(string, Value)>, encode: string -> string): string
  {
    Join(QueryPieces(QueryPairs(params), encode), "&")
  }

  /** Reads a query string back into pairs, undoing the encoding with `decode`. */
  function ParseQueryString(q: string, decode: string -> string): (r: seq<(string, string)>)
  {
    if q == "" then []
    else
      var pieces := Split(q, '&');
      seq(|pieces|, i requires 0 <= i < |pieces| =>
        var kv := Split(pieces[i], '=');
        (decode(kv[0]), decode(if |kv| > 1 then kv[1] else "")))
  }

  /**
    With any encoder that escapes `&` and `=` and that `decode` inverts, the query
    string reads back as exactly the kept parameters, in order.
  */
  lemma QueryStringRoundTrip(params: seq<(string, Value)>, encode: string -> string, decode: string -> string)
    requires forall s :: '&' !in encode(s) && '=' !in encode(s) && decode(encode(s)) == s
    ensures ParseQueryString(ToQueryString(params, encode), decode) == QueryPairs(params)
  {
    var pairs := QueryPairs(params);
    var pieces := QueryPieces(pairs, encode);
    var q := ToQueryString(params, encode);
    if pairs != [] {
      forall p | p in pieces
        ensures '&' !in p
      {
        var i :| 0 <= i < |pieces| && pieces[i] == p;
        assert p == encode(pairs[i].0) + ['='] + encode(pairs[i].1);
      }
      SplitJoin(pieces, '&');
      assert q != "" by {
        assert |pieces[0]| >= 1;
        if |pieces| > 1 {
          assert q == pieces[0] + "&" + Join(pieces[1..], "&");
        }
      }
      var r := ParseQueryString(q, decode);
      forall i | 0 <= i < |pairs|
        ensures r[i] == pairs[i]
      {
        var a := encode(pairs[i].0);
        var b := encode(pairs[i].1);
        assert pieces[i] == a + ['='] + b;
        SplitAtSeparator(a, b, '=');
        SplitNoSeparator(b, '=');
      }
    }
  }

  // ------------------------------------------------------------------ images

  /**
    `getFirstFullImage(images)`: no URL for a missing or empty list, otherwise the
    URL of the LAST image under the uploads base URL.
  */
  function FirstFullImage(images: Option<seq<ImageDetail>>, uploadsBaseUrl: string): (r: Option<string>)
    ensures r.None? <==> images.None? || images.value == []
  {
    match images
    case None => None
    case Some(xs) =>
      if xs == [] then None else Some(uploadsBaseUrl + "/" + xs[|xs| - 1].imageName)
  }

  /** Only the last image decides the URL, and the URL ends in that image's name. */
  lemma FirstFullImageIsLast(xs: seq<ImageDetail>, x: ImageDetail, base: string)
    ensures FirstFullImage(Some(xs + [x]), base) == FirstFullImage(Some([x]), base)
    ensures EndsWith(FirstFullImage(Some(xs + [x]), base).value, "/" + x.imageName)
  {
    var u := base + "/" + x.imageName;
    assert u[|u| - |"/" + x.imageName|..] == "/" + x.imageName;
  }

  /**
    `getImageFile(image)`: a path is reduced to its last `/`-separated piece;
    files, `null` and an unset field pass through.
  */
  function ImageFile(image: Upload): (r: Upload)
    ensures image.Path? <==> r.Path?
    ensures !image.Path? ==> r == image
  {
    match image
    case Path(p) => Path(LastPiece(p, '/'))
    case _ => image
  }

  /** The file name is the end of the path after its last `/`, and reducing it again changes nothing. */
  lemma ImageFileName(p: string)
    ensures '/' !in ImageFile(Path(p)).path
    ensures EndsWith(p, ImageFile(Path(p)).path)
    ensures |ImageFile(Path(p)).path| < |p| ==> p[|p| - |ImageFile(Path(p)).path| - 1] == '/'
    ensures ImageFile(ImageFile(Path(p))) == ImageFile(Path(p))
  {
    LastPieceSuffix(p, '/');
    LastPieceNoSeparator(LastPiece(p, '/'), '/');
  }

  /** The file name of an image's full URL is the image's own name, whatever the base URL. */
  lemma ImageFileOfFullImage(xs: seq<ImageDetail>, base: string)
    requires xs != [] && '/' !in xs[|xs| - 1].imageName
    ensures ImageFile(Path(FirstFullImage(Some(xs), base).value)) == Path(xs[|xs| - 1].imageName)
  {
    var name := xs[|xs| - 1].imageName;
    assert base + "/" + name == base + ['/'] + name;
    LastPieceAfterSeparator(base, name, '/');
    LastPieceNoSeparator(name, '/');
  }

  // ------------------------------------------------------------ prefectures

  /**
    `getPrefectureName(id)`: the label of the prefecture option whose value is
    `String(id)`, or "???" when there is none (the empty value of the placeholder
    matches no number).
  */
  function PrefectureName(id: Number): string
  {
    match Seqs.Find(Constants.PrefectureOptions, (o: PickOption) => o.value == NumberToString(id))
    case Some(o) => if o.option != "" then o.option else "???"
    case None => "???"
  }

  /** Ids 1..47 name their prefecture; every other number, NaN included, gives "???". */
  lemma PrefectureNameSpec(id: Number)
    ensures id.Int? && 1 <= id.v <= 47 ==> PrefectureName(id) == Constants.PrefectureOptions[id.v].option
    ensures !(id.Int? && 1 <= id.v <= 47) ==> PrefectureName(id) == "???"
  {
    Constants.PrefectureOptionsValues();
    Constants.PrefectureOptionsLabels();
    var opts := Constants.PrefectureOptions;
    var p := (o: PickOption) => o.value == NumberToString(id);
    if id.Int? && 1 <= id.v <= 47 {
      forall k | 0 <= k < id.v
        ensures !p(opts[k])
      {
        if k != 0 {
          NatToStringInjective(k, id.v);
        }
      }
      Seqs.FindFirst(opts, p, id.v);
    } else {
      forall k | 0 <= k < |opts|
        ensures !p(opts[k])
      {
        if k != 0 && id.Int? {
          IntToStringInjective(k, id.v);
        }
        if id.NaN? {
          assert NatToString(k) != "NaN" by {
            assert IsDigit(NatToString(k)[0]);
          }
        }
      }
    }
  }
}
