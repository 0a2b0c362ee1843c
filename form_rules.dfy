/**
  The validation rules both registration forms (`RegisterForJobSeeker.tsx` and
  `RegisterForEmployer.tsx`) declare identically: the postcode and phone
  patterns, the password policy and the confirmation fields. A text field that
  was never filled in is the empty string here; `required` rejects both.
*/
module FormRules {
  import opened Wrappers
  import opened Pattern
  import Text

  /** `required()` on a string: present and not empty. */
  predicate Required(s: string)
  {
    s != ""
  }

  /** `^\d{3}-\d{4}$`. */
  const PostCodePattern: seq<Piece> :=
    [Piece(Digit, 3, Some(3)), Piece([Single('-')], 1, Some(1)), Piece(Digit, 4, Some(4))]

  /** `^0\d{2}\d{3,4}\d{4}$`. */
  const PhonePattern: seq<Piece> :=
    [Piece([Single('0')], 1, Some(1)), Piece(Digit, 2, Some(2)), Piece(Digit, 3, Some(4)), Piece(Digit, 4, Some(4))]

  predicate PostCodeValid(s: string)
  {
    Required(s) && Matches(PostCodePattern, s)
  }

  predicate PhoneValid(s: string)
  {
    Required(s) && Matches(PhonePattern, s)
  }

  lemma AllDigitsClass(s: string)
    ensures AllIn(Digit, s) <==> Text.AllDigits(s)
  {
    forall k | 0 <= k < |s|
      ensures InClass(Digit, s[k]) <==> '0' <= s[k] <= '9'
    {
      DigitClass(s[k]);
    }
  }

  /** A postcode is three digits, a hyphen and four digits. */
  lemma PostCodeSpec(s: string)
    ensures PostCodeValid(s) <==> |s| == 8 && Text.AllDigits(s[..3]) && s[3] == '-' && Text.AllDigits(s[4..])
  {
    var ps := PostCodePattern;
    MatchesFixed(ps, s);
    if |s| >= 3 {
      AllDigitsClass(s[..3]);
      MatchesFixed(ps[1..], s[3..]);
      assert ps[1..][0] == Piece([Single('-')], 1, Some(1));
      assert ps[1..][1..] == [Piece(Digit, 4, Some(4))];
      if |s| >= 4 {
        assert s[3..][..1] == [s[3]] && s[3..][1..] == s[4..];
        SingleClass('-', s[3]);
        assert AllIn([Single('-')], [s[3]]) <==> s[3] == '-';
        MatchesOne(Piece(Digit, 4, Some(4)), s[4..]);
        AllDigitsClass(s[4..]);
      }
    }
  }

  /** A phone number is a leading 0 followed by nine or ten more digits. */
  lemma PhoneSpec(s: string)
    ensures PhoneValid(s) <==> (|s| == 10 || |s| == 11) && s[0] == '0' && Text.AllDigits(s[1..])
  {
    var ps := PhonePattern;
    MatchesFixed(ps, s);
    if |s| >= 1 {
      assert s[..1] == [s[0]];
      SingleClass('0', s[0]);
      assert AllIn([Single('0')], [s[0]]) <==> s[0] == '0';
      var t := s[1..];
      assert ps[1..][0] == Piece(Digit, 2, Some(2));
      MatchesFixed(ps[1..], t);
      assert ps[1..][1..] == [Piece(Digit, 3, Some(4)), Piece(Digit, 4, Some(4))];
      if |t| >= 2 {
        MatchesRangeThenFixed(Digit, 3, 4, 4, t[2..]);
        AllInSplit(Digit, t, 2);
        AllDigitsClass(t);
      }
    }
  }

  const Uppercase: seq<ClassItem> := [Range('A', 'Z')]
  const Lowercase: seq<ClassItem> := [Range('a', 'z')]
  /** `[@$!%*?&#]`. */
  const Special: seq<ClassItem> :=
    [Single('@'), Single('$'), Single('!'), Single('%'), Single('*'), Single('?'), Single('&'), Single('#')]

  /** Required, at least 8 long (as JavaScript counts), and one each of `/[A-Z]/`, `/[a-z]/`, `/[0-9]/`, `/[@$!%*?&#]/`. */
  predicate PasswordValid(p: string)
  {
    Required(p) && Utf16Length(p) >= 8
    && Occurs(Uppercase, p) && Occurs(Lowercase, p) && Occurs(Digit, p) && Occurs(Special, p)
  }

  predicate IsSpecial(c: char)
  {
    c == '@' || c == '$' || c == '!' || c == '%' || c == '*' || c == '?' || c == '&' || c == '#'
  }

  predicate HasUpper(p: string) { exists k | 0 <= k < |p| :: 'A' <= p[k] <= 'Z' }
  predicate HasLower(p: string) { exists k | 0 <= k < |p| :: 'a' <= p[k] <= 'z' }
  predicate HasDigit(p: string) { exists k | 0 <= k < |p| :: '0' <= p[k] <= '9' }
  predicate HasSpecial(p: string) { exists k | 0 <= k < |p| :: IsSpecial(p[k]) }

  lemma SpecialClass(c: char)
    ensures InClass(Special, c) <==> IsSpecial(c)
  {
    if IsSpecial(c) {
      var i := if c == '@' then 0 else if c == '$' then 1 else if c == '!' then 2 else if c == '%' then 3
        else if c == '*' then 4 else if c == '?' then 5 else if c == '&' then 6 else 7;
      assert ItemHas(Special[i], c);
    }
  }

  lemma OccursClasses(p: string)
    ensures Occurs(Uppercase, p) <==> HasUpper(p)
    ensures Occurs(Lowercase, p) <==> HasLower(p)
    ensures Occurs(Digit, p) <==> HasDigit(p)
    ensures Occurs(Special, p) <==> HasSpecial(p)
  {
    forall k | 0 <= k < |p|
      ensures InClass(Uppercase, p[k]) <==> 'A' <= p[k] <= 'Z'
      ensures InClass(Lowercase, p[k]) <==> 'a' <= p[k] <= 'z'
      ensures InClass(Digit, p[k]) <==> '0' <= p[k] <= '9'
      ensures InClass(Special, p[k]) <==> IsSpecial(p[k])
    {
      RangeClass('A', 'Z', p[k]);
      RangeClass('a', 'z', p[k]);
      DigitClass(p[k]);
      SpecialClass(p[k]);
    }
  }

  /**
    The password policy in plain terms: at least eight characters (a character
    outside the Basic Multilingual Plane counting as two), an uppercase ASCII
    letter, a lowercase ASCII letter, a digit and one of `@$!%*?&#`.
  */
  lemma PasswordSpec(p: string)
    ensures PasswordValid(p) <==>
      Utf16Length(p) >= 8 && HasUpper(p) && HasLower(p) && HasDigit(p) && HasSpecial(p)
  {
    OccursClasses(p);
  }

  /** `oneOf([ref(field)])` with `required()`: filled in and equal to the field it confirms. */
  predicate Confirms(confirm: string, original: string)
  {
    Required(confirm) && confirm == original
  }
}
