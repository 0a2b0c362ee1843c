/**
  The employer registration form of `src/components/modal/RegisterForEmployer.tsx`:
  its validation schema, the payload `onSubmit` sends, and when the month and day
  selects of the establishment date appear. The validation library's number
  coercion and its email and URL checks are parameters. Select and input values
  arrive as strings (`None` for a field never touched).
*/
module RegisterEmployer {
  import opened Wrappers
  import opened Js
  import opened Types
  import opened FormRules
  import Helper
  import Text

  datatype EmployerForm = EmployerForm(
    name: string, company: string, postCode: string, prefecture: Option<string>, address: string,
    phone: string, numberOfEmployee: Option<string>,
    establishmentYear: Option<string>, establishmentMonth: Option<string>, establishmentDate: Option<string>,
    capitalStock: Option<string>, businessContent: Option<string>, website: Option<string>,
    email: string, password: string, confirm: string)

  /** The validation library's checks that are not modelled here. */
  datatype Checks = Checks(toNumber: string -> Number, isEmail: string -> bool, isUrl: string -> bool)

  /** The value a `number()` field validates and submits: the raw text coerced, or absent. */
  function Cast(raw: Option<string>, toNumber: string -> Number): Option<Number>
  {
    match raw
    case None => None
    case Some(s) => Some(toNumber(s))
  }

  /** `number()` not required: absent, or a value that reads as a number. */
  predicate OptionalNumber(x: Option<Number>)
  {
    x.None? || x.value.Int?
  }

  /** The employee count after its transform: an empty input counts as absent. */
  function EmployeeCount(raw: Option<string>, toNumber: string -> Number): Option<Number>
  {
    if raw == Some("") then None else Cast(raw, toNumber)
  }

  /** `typeError(…).moreThan(0)`: absent, or a number above 0. */
  predicate EmployeeCountValid(n: Option<Number>)
  {
    n.None? || (n.value.Int? && n.value.v > 0)
  }

  /** `typeError(…).positive()`: absent, or a number above 0. */
  predicate CapitalValid(n: Option<Number>)
  {
    n.None? || (n.value.Int? && n.value.v > 0)
  }

  /** `string().url()`: the URL check skips a missing or empty value. */
  predicate WebsiteValid(w: Option<string>, isUrl: string -> bool)
  {
    w.None? || w.value == "" || isUrl(w.value)
  }

  predicate FormValid(f: EmployerForm, c: Checks)
  {
    Required(f.name) && Required(f.company) && PostCodeValid(f.postCode)
    && f.prefecture.Some? && c.toNumber(f.prefecture.value).Int?
    && Required(f.address) && PhoneValid(f.phone)
    && EmployeeCountValid(EmployeeCount(f.numberOfEmployee, c.toNumber))
    && OptionalNumber(Cast(f.establishmentYear, c.toNumber))
    && OptionalNumber(Cast(f.establishmentMonth, c.toNumber))
    && OptionalNumber(Cast(f.establishmentDate, c.toNumber))
    && CapitalValid(Cast(f.capitalStock, c.toNumber))
    && WebsiteValid(f.website, c.isUrl)
    && Required(f.email) && c.isEmail(f.email)
    && PasswordValid(f.password) && Confirms(f.confirm, f.password)
  }

  /**
    The employee count is optional, and clearing its input leaves it optional;
    anything typed must read as a number above 0.
  */
  lemma EmployeeCountSpec(raw: Option<string>, toNumber: string -> Number)
    ensures raw.None? || raw == Some("") ==> EmployeeCount(raw, toNumber).None? && EmployeeCountValid(EmployeeCount(raw, toNumber))
    ensures raw.Some? && raw.value != "" ==>
      (EmployeeCountValid(EmployeeCount(raw, toNumber)) <==> toNumber(raw.value).Int? && toNumber(raw.value).v > 0)
  {
  }

  // ---------------------------------------------------------------- payload

  datatype EmployerPayload = EmployerPayload(
    clinicName: string, clinicNameKana: string, zip: string, prefectures: Number, closestStation: string,
    tel: string, employeeNumber: Option<Number>, establishmentYear: string, city: string,
    business: Option<string>, homePageUrl: Option<string>, email: string, password: string)

  /** `String(x)` of an optional number: an absent one renders as "undefined". */
  function OptionalNumberText(n: Option<Number>): string
  {
    match n
    case None => "undefined"
    case Some(v) => NumberToString(v)
  }

  /**
    `handleSubmit(onSubmit)`: nothing is sent unless the form is valid. The company
    name goes out as the kana clinic name, the address as the closest station, the
    capital as the city, and the three date parts as one free-form date.
  */
  function Submit(f: EmployerForm, c: Checks): (r: Option<EmployerPayload>)
    ensures r.Some? <==> FormValid(f, c)
  {
    if !FormValid(f, c) then None
    else Some(EmployerPayload(
      f.name, f.company, f.postCode, c.toNumber(f.prefecture.value), f.address, f.phone,
      EmployeeCount(f.numberOfEmployee, c.toNumber),
      Helper.FormatFlexibleDate(Cast(f.establishmentYear, c.toNumber), Cast(f.establishmentMonth, c.toNumber),
                                Cast(f.establishmentDate, c.toNumber)),
      OptionalNumberText(Cast(f.capitalStock, c.toNumber)),
      f.businessContent, f.website, f.email, f.password))
  }

  /**
    What is sent for a valid form: the establishment date reads back as the three
    parts chosen (each absent one left out), the city is the capital's decimal
    text, which reads back as the capital, or "undefined" when none was entered,
    and the company name and address travel in the kana-name and station fields.
  */
  lemma SubmitSpec(f: EmployerForm, c: Checks)
    requires FormValid(f, c)
    ensures var p := Submit(f, c).value;
      Helper.ParseFlexibleDate(p.establishmentYear)
        == (Cast(f.establishmentYear, c.toNumber), Cast(f.establishmentMonth, c.toNumber), Cast(f.establishmentDate, c.toNumber))
      && (f.capitalStock.None? ==> p.city == "undefined")
      && (f.capitalStock.Some? ==> ToNumber(p.city) == c.toNumber(f.capitalStock.value) && ToNumber(p.city).v > 0)
      && p.clinicName == f.name && p.clinicNameKana == f.company && p.closestStation == f.address
      && p.zip == f.postCode && p.tel == f.phone
      && (p.employeeNumber.Some? ==> p.employeeNumber.value.Int? && p.employeeNumber.value.v > 0)
  {
    Helper.FlexibleDateRoundTrip(Cast(f.establishmentYear, c.toNumber), Cast(f.establishmentMonth, c.toNumber),
                                 Cast(f.establishmentDate, c.toNumber));
    if f.capitalStock.Some? {
      Helper.ToNumberOfNumberToString(c.toNumber(f.capitalStock.value));
    }
  }

  // ------------------------------------------------------------- visibility

  /** A watched select value counts once it is a non-empty string (`"0"` included). */
  predicate Chosen(v: Option<string>)
  {
    v.Some? && v.value != ""
  }

  /** `{eYear && …}`: the month select follows a chosen year. */
  predicate MonthSelectShown(year: Option<string>)
  {
    Chosen(year)
  }

  /** `{eYear && eMonth && …}`: the day select follows a chosen year and month. */
  predicate DaySelectShown(year: Option<string>, month: Option<string>)
  {
    Chosen(year) && Chosen(month)
  }

  /**
    The day select's options: `getEstablishmentDateOptions` as written, for the year
    and month read from the form or 2025 and 1 in their place.
  */
  function DaySelectOptions(year: Option<string>, month: Option<string>): seq<PickOption>
  {
    Helper.EstablishmentDateOptions(if Chosen(year) then ToNumber(year.value) else Int(2025),
                                    if Chosen(month) then ToNumber(month.value) else Int(1))
  }

  /**
    The day select appears only with the month select, and while it is shown the
    2025/1 fallbacks never apply: for a year and a month 1..12 it has one entry per
    day of that month, the placeholder first and then the days 2..last, so day 1
    cannot be chosen.
  */
  lemma DaySelectSpec(year: Option<string>, month: Option<string>, y: int, m: int)
    requires DaySelectShown(year, month)
    requires ToNumber(year.value) == Int(y) && ToNumber(month.value) == Int(m) && 1 <= m <= 12
    ensures MonthSelectShown(year)
    ensures var opts := DaySelectOptions(year, month);
      |opts| == Helper.DaysInMonth(Helper.DateYear(y), m - 1)
      && opts[0] == PickOption("0", "日")
      && (forall i | 1 <= i < |opts| :: ToNumber(opts[i].value) == Int(i + 1))
      && (forall i | 0 <= i < |opts| :: ToNumber(opts[i].value) != Int(1))
  {
    var opts := DaySelectOptions(year, month);
    assert opts == Helper.EstablishmentDateOptions(Int(y), Int(m));
    assert (m - 1) / 12 == 0 && (m - 1) % 12 == m - 1;
    Helper.EstablishmentDateOptionsLength(Int(y), Int(m));
    Helper.EstablishmentDateOptionsMissDayOne(Int(y), Int(m));
    forall i | 1 <= i < |opts|
      ensures ToNumber(opts[i].value) == Int(i + 1)
    {
      ToNumberOfIntToString(i + 1);
    }
  }

  /**
    Without a year or month the fallback month, January of 2025, gives 31 entries:
    the placeholder and the days 2..31.
  */
  lemma DaySelectFallback(year: Option<string>, month: Option<string>)
    requires !Chosen(year) && !Chosen(month)
    ensures |DaySelectOptions(year, month)| == 31
    ensures DaySelectOptions(year, month)[0] == PickOption("0", "日")
    ensures DaySelectOptions(year, month)[30].value == "31"
  {
    assert Text.NatToString(31) == "31";
  }

  /** The select with the day list the form evidently intends, which also offers day 1. */
  function DaySelectOptionsIntended(year: Option<string>, month: Option<string>): seq<PickOption>
  {
    Helper.DayOptions(if Chosen(year) then ToNumber(year.value) else Int(2025),
                      if Chosen(month) then ToNumber(month.value) else Int(1))
  }

  /** The intended select differs from the shown one only by the entry for day 1 after the placeholder. */
  lemma DaySelectIntendedAddsDayOne(year: Option<string>, month: Option<string>)
    ensures var shown := DaySelectOptions(year, month);
      DaySelectOptionsIntended(year, month) ==
        if shown == [] then [] else shown[..1] + [PickOption("1", "1")] + shown[1..]
  {
    Helper.DayOptionsInsertDayOne(if Chosen(year) then ToNumber(year.value) else Int(2025),
                                  if Chosen(month) then ToNumber(month.value) else Int(1));
  }
}
