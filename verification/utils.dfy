/** The check of the quantity input's number text, written as a scanner over
    the text, next to the grammar of the regular expression it stands for;
    and the feedback type of an input's error. */
module Utils {
  import opened Common
  import opened DataModel

  /** `\s` of JavaScript regular expressions: the ASCII blanks, the no-break
      and other Unicode spaces, the line and paragraph separators and the
      byte-order mark. */
  predicate IsJsSpace(c: char)
  {
    c in {'\t', '\n', '\U{000B}', '\U{000C}', '\r', ' ', '\U{00A0}', '\U{1680}',
          '\U{2028}', '\U{2029}', '\U{202F}', '\U{205F}', '\U{3000}', '\U{FEFF}'} ||
    '\U{2000}' <= c <= '\U{200A}'
  }

  predicate IsSign(c: char) { c == '+' || c == '-' }

  predicate IsDigitOrComma(c: char) { IsDigit(c) || c == ',' }

  // ---- The grammar: `s[i..j]` has the given shape. ----

  predicate SpacesAt(s: string, i: nat, j: nat)
    requires i <= j <= |s|
  {
    forall k :: i <= k < j ==> IsJsSpace(s[k])
  }

  predicate DigitsAt(s: string, i: nat, j: nat)
    requires i <= j <= |s|
  {
    forall k :: i <= k < j ==> IsDigit(s[k])
  }

  predicate DigitsCommasAt(s: string, i: nat, j: nat)
    requires i <= j <= |s|
  {
    forall k :: i <= k < j ==> IsDigitOrComma(s[k])
  }

  /** `[\d,]+\.\d*`, `\.\d+` or `[\d,]+` */
  predicate MantissaAt(s: string, i: nat, j: nat)
    requires i <= j <= |s|
  {
    (exists d :: i < d < j && DigitsCommasAt(s, i, d) && s[d] == '.' && DigitsAt(s, d + 1, j)) ||
    (i + 1 < j && s[i] == '.' && DigitsAt(s, i + 1, j)) ||
    (i < j && DigitsCommasAt(s, i, j))
  }

  /** `[eE][-+]?\d+` */
  predicate ExponentAt(s: string, i: nat, j: nat)
    requires i <= j <= |s|
  {
    i + 1 < j && (s[i] == 'e' || s[i] == 'E') &&
    (DigitsAt(s, i + 1, j) || (i + 2 < j && IsSign(s[i + 1]) && DigitsAt(s, i + 2, j)))
  }

  /** `(?:[-+]\s*)?` */
  predicate SignAt(s: string, i: nat, j: nat)
    requires i <= j <= |s|
  {
    i == j || (IsSign(s[i]) && SpacesAt(s, i + 1, j))
  }

  /** The number: an optional sign, the mantissa, an optional exponent. */
  predicate NumberAt(s: string, i: nat, j: nat)
    requires i <= j <= |s|
  {
    exists a, b :: i <= a <= b <= j && SignAt(s, i, a) && MantissaAt(s, a, b) && (b == j || ExponentAt(s, b, j))
  }

  /** `\+\/?-` or `±` */
  predicate UncertaintyAt(s: string, i: nat, j: nat)
    requires i <= j <= |s|
  {
    (j == i + 1 && s[i] == '±') ||
    (j == i + 2 && s[i] == '+' && s[i + 1] == '-') ||
    (j == i + 3 && s[i] == '+' && s[i + 1] == '/' && s[i + 2] == '-')
  }

  /** `[~!]`, an uncertainty marker and a second number, or nothing. */
  predicate SuffixAt(s: string, i: nat, j: nat)
    requires i <= j <= |s|
  {
    i == j || (j == i + 1 && (s[i] == '~' || s[i] == '!')) ||
    exists m :: i < m <= j && UncertaintyAt(s, i, m) && NumberAt(s, m, j)
  }

  /** The whole text matches `^\s*number(suffix)\s*$`. */
  predicate Matches(s: string)
  {
    exists a, b, c :: 0 <= a <= b <= c <= |s| &&
      SpacesAt(s, 0, a) && NumberAt(s, a, b) && SuffixAt(s, b, c) && SpacesAt(s, c, |s|)
  }

  // ---- The scanner: each step takes the longest run it can. ----

  function SkipSpaces(s: string, i: nat): (j: nat)
    requires i <= |s|
    ensures i <= j <= |s| && SpacesAt(s, i, j) && (j == |s| || !IsJsSpace(s[j]))
    decreases |s| - i
  {
    if i < |s| && IsJsSpace(s[i]) then SkipSpaces(s, i + 1) else i
  }

  function SkipDigits(s: string, i: nat): (j: nat)
    requires i <= |s|
    ensures i <= j <= |s| && DigitsAt(s, i, j) && (j == |s| || !IsDigit(s[j]))
    decreases |s| - i
  {
    if i < |s| && IsDigit(s[i]) then SkipDigits(s, i + 1) else i
  }

  function SkipDigitsCommas(s: string, i: nat): (j: nat)
    requires i <= |s|
    ensures i <= j <= |s| && DigitsCommasAt(s, i, j) && (j == |s| || !IsDigitOrComma(s[j]))
    decreases |s| - i
  {
    if i < |s| && IsDigitOrComma(s[i]) then SkipDigitsCommas(s, i + 1) else i
  }

  /** The end of the mantissa starting at `i`, if one starts there. */
  function ScanMantissa(s: string, i: nat): (r: Option<nat>)
    requires i <= |s|
    ensures r.Some? ==> i <= r.value <= |s| && MantissaAt(s, i, r.value)
  {
    var d := SkipDigitsCommas(s, i);
    if d > i then
      if d < |s| && s[d] == '.' then Some(SkipDigits(s, d + 1)) else Some(d)
    else if i < |s| && s[i] == '.' && SkipDigits(s, i + 1) > i + 1 then
      Some(SkipDigits(s, i + 1))
    else
      None
  }

  /** The end of the exponent starting at `i`, or `i` when none does. */
  function ScanExponent(s: string, i: nat): (j: nat)
    requires i <= |s|
    ensures i <= j <= |s| && (j == i || ExponentAt(s, i, j))
  {
    if i < |s| && (s[i] == 'e' || s[i] == 'E') then
      var start := if i + 1 < |s| && IsSign(s[i + 1]) then i + 2 else i + 1;
      var end := SkipDigits(s, start);
      if end > start then end else i
    else
      i
  }

  /** The end of the number starting at `i`, if one starts there. */
  function ScanNumber(s: string, i: nat): (r: Option<nat>)
    requires i <= |s|
    ensures r.Some? ==> i <= r.value <= |s| && NumberAt(s, i, r.value)
  {
    var a := if i < |s| && IsSign(s[i]) then SkipSpaces(s, i + 1) else i;
    var b := ScanMantissa(s, a);
    if b.None? then None
    else
      var j := ScanExponent(s, b.value);
      assert SignAt(s, i, a) && MantissaAt(s, a, b.value) && (b.value == j || ExponentAt(s, b.value, j));
      Some(j)
  }

  /** The end of the uncertainty marker starting at `i`, if one does. */
  function ScanUncertainty(s: string, i: nat): (r: Option<nat>)
    requires i <= |s|
    ensures r.Some? ==> i <= r.value <= |s| && UncertaintyAt(s, i, r.value)
    ensures r.None? ==> forall m :: i <= m <= |s| ==> !UncertaintyAt(s, i, m)
  {
    if i < |s| && s[i] == '±' then Some(i + 1)
    else if i + 1 < |s| && s[i] == '+' && s[i + 1] == '-' then Some(i + 2)
    else if i + 2 < |s| && s[i] == '+' && s[i + 1] == '/' && s[i + 2] == '-' then Some(i + 3)
    else None
  }

  /** The end of the suffix starting at `i`. */
  function ScanSuffix(s: string, i: nat): (r: Option<nat>)
    requires i <= |s|
    ensures r.Some? ==> i <= r.value <= |s| && SuffixAt(s, i, r.value)
  {
    if i < |s| && (s[i] == '~' || s[i] == '!') then Some(i + 1)
    else
      var m := ScanUncertainty(s, i);
      if m.Some? then
        var j := ScanNumber(s, m.value);
        if j.Some? then Some(j.value) else None
      else Some(i)
  }

  /** `validateExtendedNumberInput`: leading blanks, a number, a suffix and
      trailing blanks, with nothing left over. */
  function ValidateExtendedNumberInput(s: string): (accepted: bool)
    ensures accepted ==> Matches(s)
  {
    var a := SkipSpaces(s, 0);
    var b := ScanNumber(s, a);
    if b.None? then false
    else
      var c := ScanSuffix(s, b.value);
      if c.None? then false
      else
        var accepted := SkipSpaces(s, c.value) == |s|;
        assert accepted ==> SpacesAt(s, 0, a) && NumberAt(s, a, b.value) && SuffixAt(s, b.value, c.value) && SpacesAt(s, c.value, |s|);
        accepted
  }

  // ---- The scanner finds every match. ----

  /** What may follow a number in a match: the end, a blank, or the first
      character of a suffix. */
  predicate MayFollowNumber(s: string, j: nat)
    requires j <= |s|
  {
    j == |s| || IsJsSpace(s[j]) || s[j] == '~' || s[j] == '!' || s[j] == '+' || s[j] == '±'
  }

  /** A run that cannot be extended is the one the scanner stops at. */
  lemma {:induction false} DigitsRunEnds(s: string, i: nat, j: nat)
    requires i <= j <= |s| && DigitsAt(s, i, j) && (j == |s| || !IsDigit(s[j]))
    ensures SkipDigits(s, i) == j
    decreases j - i
  {
    if i < j {
      DigitsRunEnds(s, i + 1, j);
    }
  }

  lemma {:induction false} DigitsCommasRunEnds(s: string, i: nat, j: nat)
    requires i <= j <= |s| && DigitsCommasAt(s, i, j) && (j == |s| || !IsDigitOrComma(s[j]))
    ensures SkipDigitsCommas(s, i) == j
    decreases j - i
  {
    if i < j {
      DigitsCommasRunEnds(s, i + 1, j);
    }
  }

  lemma {:induction false} SpacesRunEnds(s: string, i: nat, j: nat)
    requires i <= j <= |s| && SpacesAt(s, i, j) && (j == |s| || !IsJsSpace(s[j]))
    ensures SkipSpaces(s, i) == j
    decreases j - i
  {
    if i < j {
      SpacesRunEnds(s, i + 1, j);
    }
  }

  /** A mantissa followed by the end of the number or an exponent is the one
      the scanner reads. */
  lemma ScanMantissaFinds(s: string, a: nat, b: nat)
    requires a <= b <= |s| && MantissaAt(s, a, b)
    requires b == |s| || s[b] == 'e' || s[b] == 'E' || MayFollowNumber(s, b)
    ensures ScanMantissa(s, a) == Some(b)
  {
    if d :| a < d < b && DigitsCommasAt(s, a, d) && s[d] == '.' && DigitsAt(s, d + 1, b) {
      DigitsCommasRunEnds(s, a, d);
      DigitsRunEnds(s, d + 1, b);
    } else if a + 1 < b && s[a] == '.' && DigitsAt(s, a + 1, b) {
      DigitsCommasRunEnds(s, a, a);
      DigitsRunEnds(s, a + 1, b);
    } else {
      DigitsCommasRunEnds(s, a, b);
    }
  }

  /** An exponent (or none) followed by what may follow a number is the one
      the scanner reads. */
  lemma ScanExponentFinds(s: string, b: nat, j: nat)
    requires b <= j <= |s| && (b == j || ExponentAt(s, b, j)) && MayFollowNumber(s, j)
    ensures ScanExponent(s, b) == j
  {
    if b < j {
      if DigitsAt(s, b + 1, j) {
        DigitsRunEnds(s, b + 1, j);
      } else {
        DigitsRunEnds(s, b + 2, j);
      }
    }
  }

  /** The sign part the scanner skips ends where the mantissa starts. */
  lemma ScanSignFinds(s: string, i: nat, a: nat)
    requires i <= a < |s| && SignAt(s, i, a) && (s[a] == '.' || IsDigitOrComma(s[a]))
    ensures (if i < |s| && IsSign(s[i]) then SkipSpaces(s, i + 1) else i) == a
  {
    if i < |s| && IsSign(s[i]) {
      SpacesRunEnds(s, i + 1, a);
    }
  }

  /** A mantissa starts with a digit, a comma or a point. */
  lemma MantissaStart(s: string, a: nat, b: nat)
    requires a <= b <= |s| && MantissaAt(s, a, b)
    ensures a < b && (s[a] == '.' || IsDigitOrComma(s[a]))
  {
  }

  /** A number that a match may continue after is the one the scanner reads. */
  lemma ScanNumberFinds(s: string, i: nat, j: nat)
    requires i <= j <= |s| && NumberAt(s, i, j) && MayFollowNumber(s, j)
    ensures ScanNumber(s, i) == Some(j)
  {
    var a, b :| i <= a <= b <= j && SignAt(s, i, a) && MantissaAt(s, a, b) && (b == j || ExponentAt(s, b, j));
    MantissaStart(s, a, b);
    ScanSignFinds(s, i, a);
    ScanMantissaFinds(s, a, b);
    ScanExponentFinds(s, b, j);
  }

  /** The first character of a number is never a blank. */
  lemma NumberStartsSolid(s: string, i: nat, j: nat)
    requires i <= j <= |s| && NumberAt(s, i, j)
    ensures i < j && !IsJsSpace(s[i])
  {
    var a, b :| i <= a <= b <= j && SignAt(s, i, a) && MantissaAt(s, a, b) && (b == j || ExponentAt(s, b, j));
    MantissaStart(s, a, b);
  }

  /** A suffix followed by blanks to the end is the one the scanner reads. */
  lemma ScanSuffixFinds(s: string, b: nat, c: nat)
    requires b <= c <= |s| && SuffixAt(s, b, c) && SpacesAt(s, c, |s|)
    ensures ScanSuffix(s, b) == Some(c)
  {
    if b == c {
      assert b < |s| ==> IsJsSpace(s[b]);
    } else if c == b + 1 && (s[b] == '~' || s[b] == '!') {
    } else {
      var m :| b < m <= c && UncertaintyAt(s, b, m) && NumberAt(s, m, c);
      UncertainSuffixFinds(s, b, m, c);
    }
  }

  /** An uncertainty marker and a number followed by blanks to the end are
      the suffix the scanner reads. */
  lemma UncertainSuffixFinds(s: string, b: nat, m: nat, c: nat)
    requires b < m <= c <= |s| && UncertaintyAt(s, b, m) && NumberAt(s, m, c) && SpacesAt(s, c, |s|)
    ensures ScanSuffix(s, b) == Some(c)
  {
    assert c < |s| ==> IsJsSpace(s[c]);
    ScanNumberFinds(s, m, c);
    ScanUncertaintyFinds(s, b, m);
  }

  /** An uncertainty marker is the one the scanner reads, and it does not
      start like a `~` or `!` suffix. */
  lemma ScanUncertaintyFinds(s: string, b: nat, m: nat)
    requires b < m <= |s| && UncertaintyAt(s, b, m)
    ensures ScanUncertainty(s, b) == Some(m) && s[b] != '~' && s[b] != '!'
  {
  }

  /** The suffix of a match starts with what may follow a number. */
  lemma SuffixFollowsNumber(s: string, b: nat, c: nat)
    requires b <= c <= |s| && SuffixAt(s, b, c) && SpacesAt(s, c, |s|)
    ensures MayFollowNumber(s, b)
  {
  }

  /** The scanner accepts exactly the texts the regular expression matches. */
  lemma ValidateExtendedNumberInputMatches(s: string)
    ensures ValidateExtendedNumberInput(s) <==> Matches(s)
  {
    if Matches(s) {
      var a, b, c :| 0 <= a <= b <= c <= |s| &&
        SpacesAt(s, 0, a) && NumberAt(s, a, b) && SuffixAt(s, b, c) && SpacesAt(s, c, |s|);
      NumberStartsSolid(s, a, b);
      SpacesRunEnds(s, 0, a);
      SuffixFollowsNumber(s, b, c);
      ScanNumberFinds(s, a, b);
      ScanSuffixFinds(s, b, c);
      SpacesRunEnds(s, c, |s|);
    }
  }

  /** Empty and all-blank texts are rejected. */
  lemma BlankRejected(s: string)
    requires SpacesAt(s, 0, |s|)
    ensures !ValidateExtendedNumberInput(s)
  {
    if ValidateExtendedNumberInput(s) {
      var a, b, c :| 0 <= a <= b <= c <= |s| &&
        SpacesAt(s, 0, a) && NumberAt(s, a, b) && SuffixAt(s, b, c) && SpacesAt(s, c, |s|);
      NumberStartsSolid(s, a, b);
    }
  }

  /** An amount with grouping commas and a decimal part is accepted. */
  lemma AcceptedExample()
    ensures ValidateExtendedNumberInput("1,5")
  {
    var s := "1,5";
    assert SkipSpaces(s, 0) == 0;
    assert SkipDigitsCommas(s, 0) == 3;
  }

  /** A value with an uncertainty is accepted. */
  lemma UncertaintyAccepted()
    ensures ValidateExtendedNumberInput("1+/-2")
  {
    var s := "1+/-2";
    assert SkipSpaces(s, 0) == 0;
    assert SkipDigitsCommas(s, 0) == 1;
    assert ScanMantissa(s, 0) == Some(1);
    assert ScanNumber(s, 0) == Some(1);
    assert ScanUncertainty(s, 1) == Some(4);
    assert SkipDigitsCommas(s, 4) == 5;
    assert ScanMantissa(s, 4) == Some(5);
    assert ScanNumber(s, 4) == Some(5);
    assert ScanSuffix(s, 1) == Some(5);
  }

  /** No blank may stand between the uncertainty marker and its number. */
  lemma BlankAfterUncertaintyRejected()
    ensures !ValidateExtendedNumberInput("1± 2")
  {
    var s := "1± 2";
    assert SkipSpaces(s, 0) == 0;
    assert SkipDigitsCommas(s, 0) == 1;
    assert ScanNumber(s, 0) == Some(1);
    assert ScanUncertainty(s, 1) == Some(2);
    assert SkipDigitsCommas(s, 2) == 2;
    assert ScanMantissa(s, 2) == None;
    assert ScanNumber(s, 2) == None;
    assert ScanSuffix(s, 1) == None;
  }

  /** A text with letters is rejected. */
  lemma RejectedExample()
    ensures !ValidateExtendedNumberInput("a")
  {
  }

  /** `getFeedbackTypeFromProps`: the type of the error when there is one. */
  function FeedbackType(error: Option<QueryBuilderError>): (r: Option<ErrorType>)
    ensures r.Some? <==> error.Some?
    ensures r.Some? ==> r.value == error.value.errorType
  {
    if error.Some? then Some(error.value.errorType) else None
  }
}
