/**
  The job-seeker registration form of `src/components/modal/RegisterForJobSeeker.tsx`:
  its validation schema and the payload `onSubmit` sends. The email check of the
  validation library is a parameter. The name pattern as written does not accept
  katakana; the schema here checks the name with it as written, and the
  evidently intended pattern is kept beside it to show the difference.
*/
module RegisterJobSeeker {
  import opened Wrappers
  import opened Text
  import opened Js
  import opened Pattern
  import opened FormRules

  // ------------------------------------------------------------------ names

  /**
    `^[一-龯゠–ヿ]+$` as written: the character between `゠`
    and `ヿ` is an en dash (U+2013), not a hyphen, so the class is the CJK
    ideographs plus three single characters, and not the katakana block.
  */
  const NamePatternAsWritten: seq<Piece> :=
    [Piece([Range('\U{4E00}', '\U{9FAF}'), Single('\U{30A0}'), Single('\U{2013}'), Single('\U{30FF}')], 1, None)]

  /** The pattern the comment beside it describes: CJK ideographs and the katakana block U+30A0..U+30FF. */
  const NamePattern: seq<Piece> :=
    [Piece([Range('\U{4E00}', '\U{9FAF}'), Range('\U{30A0}', '\U{30FF}')], 1, None)]

  /** `^[ァ-ヶー　]+$`: katakana ァ..ヶ, the long-vowel mark and the full-width space. */
  const NameKanaPattern: seq<Piece> :=
    [Piece([Range('ァ', 'ヶ'), Single('ー'), Single('　')], 1, None)]

  predicate IsKanji(c: char) { '\U{4E00}' <= c <= '\U{9FAF}' }

  predicate IsKatakanaBlock(c: char) { '\U{30A0}' <= c <= '\U{30FF}' }

  predicate IsKanaChar(c: char) { 'ァ' <= c <= 'ヶ' || c == 'ー' || c == '　' }

  predicate NameValid(s: string)
  {
    Required(s) && Matches(NamePattern, s)
  }

  predicate NameValidAsWritten(s: string)
  {
    Required(s) && Matches(NamePatternAsWritten, s)
  }

  predicate NameKanaValid(s: string)
  {
    Required(s) && Matches(NameKanaPattern, s)
  }

  /** A name is one or more characters, each a CJK ideograph or from the katakana block. */
  lemma NameSpec(s: string)
    ensures NameValid(s) <==> |s| >= 1 && forall k | 0 <= k < |s| :: IsKanji(s[k]) || IsKatakanaBlock(s[k])
  {
    var cls := NamePattern[0].cls;
    MatchesOne(NamePattern[0], s);
    assert [NamePattern[0]] == NamePattern;
    forall k | 0 <= k < |s|
      ensures InClass(cls, s[k]) <==> IsKanji(s[k]) || IsKatakanaBlock(s[k])
    {
      if IsKanji(s[k]) {
        assert ItemHas(cls[0], s[k]);
      } else if IsKatakanaBlock(s[k]) {
        assert ItemHas(cls[1], s[k]);
      }
    }
  }

  predicate IsWrittenNameChar(c: char)
  {
    IsKanji(c) || c == '\U{30A0}' || c == '\U{2013}' || c == '\U{30FF}'
  }

  /**
    As written, a name is one or more characters, each a CJK ideograph or one of
    U+30A0, U+2013 and U+30FF.
  */
  lemma NameAsWrittenSpec(s: string)
    ensures NameValidAsWritten(s) <==> |s| >= 1 && forall k | 0 <= k < |s| :: IsWrittenNameChar(s[k])
  {
    var cls := NamePatternAsWritten[0].cls;
    MatchesOne(NamePatternAsWritten[0], s);
    assert [NamePatternAsWritten[0]] == NamePatternAsWritten;
    forall k | 0 <= k < |s|
      ensures InClass(cls, s[k]) <==> IsWrittenNameChar(s[k])
    {
      if IsKanji(s[k]) {
        assert ItemHas(cls[0], s[k]);
      } else if s[k] == '\U{30A0}' {
        assert ItemHas(cls[1], s[k]);
      } else if s[k] == '\U{2013}' {
        assert ItemHas(cls[2], s[k]);
      } else if s[k] == '\U{30FF}' {
        assert ItemHas(cls[3], s[k]);
      }
    }
  }

  /** A reading (kana) name is one or more of the katakana ァ..ヶ, 'ー' and the full-width space. */
  lemma NameKanaSpec(s: string)
    ensures NameKanaValid(s) <==> |s| >= 1 && forall k | 0 <= k < |s| :: IsKanaChar(s[k])
  {
    var cls := NameKanaPattern[0].cls;
    MatchesOne(NameKanaPattern[0], s);
    assert [NameKanaPattern[0]] == NameKanaPattern;
    forall k | 0 <= k < |s|
      ensures InClass(cls, s[k]) <==> IsKanaChar(s[k])
    {
      if 'ァ' <= s[k] <= 'ヶ' {
        assert ItemHas(cls[0], s[k]);
      } else if s[k] == 'ー' {
        assert ItemHas(cls[1], s[k]);
      } else if s[k] == '　' {
        assert ItemHas(cls[2], s[k]);
      }
    }
  }

  /** As written, the katakana name "カナ" is rejected; the intended pattern accepts it. */
  lemma NameAsWrittenRejectsKatakana()
    ensures !NameValidAsWritten("カナ") && NameValid("カナ")
  {
    var written := NamePatternAsWritten[0];
    assert [written] == NamePatternAsWritten;
    MatchesOne(written, "カナ");
    assert !InClass(written.cls, "カナ"[0]) by {
      forall i | 0 <= i < |written.cls|
        ensures !ItemHas(written.cls[i], 'カ')
      {
      }
    }
    NameSpec("カナ");
  }

  /** As written, a lone en dash passes as a name; the intended pattern rejects it. */
  lemma NameAsWrittenAcceptsEnDash()
    ensures NameValidAsWritten("\U{2013}") && !NameValid("\U{2013}")
  {
    var written := NamePatternAsWritten[0];
    assert [written] == NamePatternAsWritten;
    MatchesOne(written, "\U{2013}");
    assert ItemHas(written.cls[2], "\U{2013}"[0]);
    NameSpec("\U{2013}");
  }

  // ------------------------------------------------------------------- form

  datatype SeekerForm = SeekerForm(
    name: string, nameKana: string,
    dobYear: Option<Number>, dobMonth: Option<Number>, dobDate: Option<Number>,
    sex: string, postCode: string, prefecture: string, phone: string,
    email: string, confirmEmail: string, password: string, confirmPassword: string, others: string)

  /** The form before any input: only the sex has a default, '1'. */
  const InitialForm := SeekerForm("", "", None, None, None, "1", "", "", "", "", "", "", "", "")

  /** `number().required()`: a value that reads as a number. */
  predicate NumberRequired(x: Option<Number>)
  {
    x.Some? && x.value.Int?
  }

  /** The whole schema, with the name pattern as written; `isEmail` is the validation library's email check. */
  predicate FormValid(f: SeekerForm, isEmail: string -> bool)
  {
    NameValidAsWritten(f.name) && NameKanaValid(f.nameKana)
    && NumberRequired(f.dobYear) && NumberRequired(f.dobMonth) && NumberRequired(f.dobDate)
    && Required(f.sex) && PostCodeValid(f.postCode) && Required(f.prefecture) && PhoneValid(f.phone)
    && Required(f.email) && isEmail(f.email) && Confirms(f.confirmEmail, f.email)
    && PasswordValid(f.password) && Confirms(f.confirmPassword, f.password)
  }

  /** The untouched form already has a valid sex but cannot be submitted. */
  lemma InitialFormNeedsInput(isEmail: string -> bool)
    ensures InitialForm.sex == "1" && Required(InitialForm.sex)
    ensures !FormValid(InitialForm, isEmail)
  {
  }

  // ---------------------------------------------------------------- payload

  datatype SeekerPayload = SeekerPayload(
    name: string, nameKana: string, birthdate: string, sex: Number, zip: string,
    prefectures: Number, tel: string, email: string, password: string)

  /** `${year}-${String(month).padStart(2, '0')}-${String(day).padStart(2, '0')}`. */
  function Birthdate(year: int, month: int, day: int): string
  {
    IntToString(year) + "-" + PadStart2(IntToString(month)) + "-" + PadStart2(IntToString(day))
  }

  /** Reads a `year-month-day` text of three digit runs back into numbers. */
  function ParseBirthdate(s: string): Option<(int, int, int)>
  {
    var parts := Split(s, '-');
    if |parts| == 3 && AllDigits(parts[0]) && AllDigits(parts[1]) && AllDigits(parts[2])
    then Some((DigitsValue(parts[0]), DigitsValue(parts[1]), DigitsValue(parts[2])))
    else None
  }

  /** A month or day below 100 pads to two digits that read back as it. */
  lemma PadStart2Value(n: nat)
    requires n < 100
    ensures var t := PadStart2(IntToString(n)); |t| == 2 && AllDigits(t) && DigitsValue(t) == n
  {
    NatToStringValue(n);
    var s := NatToString(n);
    if n < 10 {
      var t := "0" + s;
      assert t[..|t| - 1] == "0" && "0"[..0] == [];
    } else {
      assert s == NatToString(n / 10) + [DigitChar(n % 10)];
    }
  }

  /**
    The birthdate sent reads back as the year, month and day chosen (for a
    non-negative year and a month and day below 100), with month and day always
    two digits long.
  */
  lemma BirthdateRoundTrip(year: nat, month: nat, day: nat)
    requires month < 100 && day < 100
    ensures ParseBirthdate(Birthdate(year, month, day)) == Some((year, month, day))
    ensures var parts := Split(Birthdate(year, month, day), '-'); |parts[1]| == 2 && |parts[2]| == 2
  {
    var y := IntToString(year);
    var m := PadStart2(IntToString(month));
    var d := PadStart2(IntToString(day));
    NatToStringValue(year);
    PadStart2Value(month);
    PadStart2Value(day);
    assert Birthdate(year, month, day) == y + ['-'] + (m + ['-'] + d);
    SplitAtSeparator(y, m + ['-'] + d, '-');
    SplitAtSeparator(m, d, '-');
    SplitNoSeparator(d, '-');
  }

  /**
    `handleSubmit(onSubmit)`: nothing is sent unless the form is valid; then the
    payload carries the birthdate text and the sex and prefecture as numbers.
  */
  function Submit(f: SeekerForm, isEmail: string -> bool): (r: Option<SeekerPayload>)
    ensures r.Some? <==> FormValid(f, isEmail)
  {
    if !FormValid(f, isEmail) then None
    else Some(SeekerPayload(
      f.name, f.nameKana, Birthdate(f.dobYear.value.v, f.dobMonth.value.v, f.dobDate.value.v),
      ToNumber(f.sex), f.postCode, ToNumber(f.prefecture), f.phone, f.email, f.password))
  }

  /** A form named in katakana, "カナ", is never sent, however the other fields are filled. */
  lemma SubmitRejectsKatakanaName(f: SeekerForm, isEmail: string -> bool)
    requires f.name == "カナ"
    ensures Submit(f, isEmail).None?
  {
    NameAsWrittenRejectsKatakana();
  }

  /**
    What is sent: the typed fields unchanged (the postcode as `zip`, the phone as
    `tel`), the chosen sex and prefecture read as numbers, and a birthdate that
    reads back as the chosen date; the confirmation fields are not sent.
  */
  lemma SubmitSpec(f: SeekerForm, isEmail: string -> bool, sexId: nat, prefectureId: nat)
    requires FormValid(f, isEmail)
    requires f.sex == NatToString(sexId) && f.prefecture == NatToString(prefectureId)
    requires 0 <= f.dobYear.value.v && 0 <= f.dobMonth.value.v < 100 && 0 <= f.dobDate.value.v < 100
    ensures var p := Submit(f, isEmail).value;
      p.sex == Int(sexId) && p.prefectures == Int(prefectureId)
      && p.zip == f.postCode && p.tel == f.phone && p.email == f.email && p.password == f.password
      && p.name == f.name && p.nameKana == f.nameKana
      && ParseBirthdate(p.birthdate) == Some((f.dobYear.value.v, f.dobMonth.value.v, f.dobDate.value.v))
  {
    ToNumberOfIntToString(sexId);
    ToNumberOfIntToString(prefectureId);
    BirthdateRoundTrip(f.dobYear.value.v, f.dobMonth.value.v, f.dobDate.value.v);
  }
}
