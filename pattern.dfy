/**
  The small family of regular expressions the forms validate with: anchored
  patterns `^…$` that are a sequence of bracket classes, each with a quantifier
  (`{n}`, `{n,m}` or `+`), and unanchored single-class searches such as `/[A-Z]/`.
  A pattern is written as data, exactly as in the source, and `Matches` gives it
  the regular-expression meaning; lemmas here relate that meaning to plain
  statements about the characters.
*/
module Pattern {
  import opened Wrappers

  /** One entry of a bracket class: a single character or an inclusive range. */
  datatype ClassItem = Single(c: char) | Range(lo: char, hi: char)

  predicate ItemHas(item: ClassItem, c: char)
  {
    match item
    case Single(x) => c == x
    case Range(lo, hi) => lo <= c <= hi
  }

  /** `[…]`: the character is one of the entries. */
  predicate InClass(cls: seq<ClassItem>, c: char)
  {
    exists i | 0 <= i < |cls| :: ItemHas(cls[i], c)
  }

  predicate AllIn(cls: seq<ClassItem>, s: string)
  {
    forall k | 0 <= k < |s| :: InClass(cls, s[k])
  }

  /** A bracket class with its quantifier: between `min` and `max` repetitions, `max` absent for `+`. */
  datatype Piece = Piece(cls: seq<ClassItem>, min: nat, max: Option<nat>)

  predicate WithinMax(n: nat, max: Option<nat>)
  {
    max.None? || n <= max.value
  }

  /**
    `^p1…pn$`: the string splits into consecutive runs, one per piece, each of a
    length the piece's quantifier allows and made only of its class's characters.
  */
  predicate Matches(ps: seq<Piece>, s: string)
    decreases |ps|
  {
    if ps == [] then s == []
    else exists n: nat | ps[0].min <= n <= |s| && WithinMax(n, ps[0].max) ::
      AllIn(ps[0].cls, s[..n]) && Matches(ps[1..], s[n..])
  }

  /** `/[…]/` without anchors: some character of the string is in the class. */
  predicate Occurs(cls: seq<ClassItem>, s: string)
  {
    exists k | 0 <= k < |s| :: InClass(cls, s[k])
  }

  /** `\d`. */
  const Digit: seq<ClassItem> := [Range('0', '9')]

  lemma DigitClass(c: char)
    ensures InClass(Digit, c) <==> '0' <= c <= '9'
  {
    if '0' <= c <= '9' {
      assert ItemHas(Digit[0], c);
    }
  }

  /** A one-character class `[x]`. */
  lemma SingleClass(x: char, c: char)
    ensures InClass([Single(x)], c) <==> c == x
  {
    if c == x {
      assert ItemHas([Single(x)][0], c);
    }
  }

  /** A one-range class `[lo-hi]`. */
  lemma RangeClass(lo: char, hi: char, c: char)
    ensures InClass([Range(lo, hi)], c) <==> lo <= c <= hi
  {
    if lo <= c <= hi {
      assert ItemHas([Range(lo, hi)][0], c);
    }
  }

  /** A pattern of one piece matches exactly the strings of an allowed length made of its class. */
  lemma MatchesOne(p: Piece, s: string)
    ensures Matches([p], s) <==> p.min <= |s| && WithinMax(|s|, p.max) && AllIn(p.cls, s)
  {
    assert [p][1..] == [];
    if Matches([p], s) {
      var n: nat :| p.min <= n <= |s| && WithinMax(n, p.max) && AllIn(p.cls, s[..n]) && Matches([p][1..], s[n..]);
      assert s[..n] == s;
    }
    if p.min <= |s| && WithinMax(|s|, p.max) && AllIn(p.cls, s) {
      assert s[..|s|] == s && s[|s|..] == [];
      assert AllIn(p.cls, s[..|s|]) && Matches([p][1..], s[|s|..]);
    }
  }

  /** A leading piece of fixed length takes exactly that many characters. */
  lemma MatchesFixed(ps: seq<Piece>, s: string)
    requires ps != [] && ps[0].max == Some(ps[0].min)
    ensures Matches(ps, s) <==>
      ps[0].min <= |s| && AllIn(ps[0].cls, s[..ps[0].min]) && Matches(ps[1..], s[ps[0].min..])
  {
    var m := ps[0].min;
    if Matches(ps, s) {
      var n: nat :| m <= n <= |s| && WithinMax(n, ps[0].max) && AllIn(ps[0].cls, s[..n]) && Matches(ps[1..], s[n..]);
      assert n == m;
    }
    if m <= |s| && AllIn(ps[0].cls, s[..m]) && Matches(ps[1..], s[m..]) {
      assert WithinMax(m, ps[0].max);
    }
  }

  /** A run is made of a class exactly when both of its parts are. */
  lemma AllInSplit(cls: seq<ClassItem>, s: string, n: nat)
    requires n <= |s|
    ensures AllIn(cls, s) <==> AllIn(cls, s[..n]) && AllIn(cls, s[n..])
  {
    if AllIn(cls, s[..n]) && AllIn(cls, s[n..]) {
      forall k | 0 <= k < |s|
        ensures InClass(cls, s[k])
      {
        if k < n {
          assert s[k] == s[..n][k];
        } else {
          assert s[k] == s[n..][k - n];
        }
      }
    }
  }

  /**
    `[c]{a,b}[c]{m}`: two runs of the same class read together as one run of
    a + m to b + m characters.
  */
  lemma MatchesRangeThenFixed(c: seq<ClassItem>, a: nat, b: nat, m: nat, s: string)
    requires a <= b
    ensures Matches([Piece(c, a, Some(b)), Piece(c, m, Some(m))], s) <==> a + m <= |s| <= b + m && AllIn(c, s)
  {
    var ps := [Piece(c, a, Some(b)), Piece(c, m, Some(m))];
    assert ps[1..] == [Piece(c, m, Some(m))];
    if Matches(ps, s) {
      var n: nat :| a <= n <= |s| && WithinMax(n, Some(b)) && AllIn(c, s[..n]) && Matches(ps[1..], s[n..]);
      MatchesOne(Piece(c, m, Some(m)), s[n..]);
      AllInSplit(c, s, n);
    }
    if a + m <= |s| <= b + m && AllIn(c, s) {
      var n := |s| - m;
      MatchesOne(Piece(c, m, Some(m)), s[n..]);
      AllInSplit(c, s, n);
      assert WithinMax(n, Some(b)) && AllIn(c, s[..n]) && Matches(ps[1..], s[n..]);
    }
  }

  /** The length JavaScript reports: characters outside the Basic Multilingual Plane count twice. */
  function Utf16Length(s: string): (n: nat)
    ensures |s| <= n <= 2 * |s|
    ensures (forall k | 0 <= k < |s| :: s[k] as int <= 0xFFFF) ==> n == |s|
    decreases |s|
  {
    if s == [] then 0 else (if s[0] as int > 0xFFFF then 2 else 1) + Utf16Length(s[1..])
  }
}
