/** Patterns for a condition on a point-in-time property. Day precision
    compares the statement's date directly; month and year precision compare
    it with the half-open period from the value to the start of the
    following month or year, computed on the xsd:dateTime lexical form
    (section 3.2.7 of XML Schema Part 2). */
module DateValuePatternBuilder {
  import opened Common
  import opened DataModel
  import opened SparqlAst
  import opened SyntaxBuilder
  import opened TripleBuilder

  const DayPrecision: int := 11
  const MonthPrecision: int := 10
  const YearPrecision: int := 9

  // ---------------------------------------------------------------------
  // The following year and month, on the lexical form

  predicate IsSign(c: char) { c == '+' || c == '-' }

  /** The longest run of digits at the start of `s`: what a greedy `\d+` takes. */
  function LeadingDigits(s: string): (d: string)
    ensures |d| <= |s| && d == s[..|d|] && AllDigits(d)
    ensures |d| < |s| ==> !IsDigit(s[|d|])
    ensures |s| > 0 && IsDigit(s[0]) ==> |d| > 0
  {
    if s == [] || !IsDigit(s[0]) then [] else [s[0]] + LeadingDigits(s[1..])
  }

  /** `^([+-])(\d+)`: a sign followed by at least one digit. */
  predicate HasSignedYear(s: string)
  {
    |s| >= 2 && IsSign(s[0]) && IsDigit(s[1])
  }

  /** The year text after the sign. */
  function YearDigits(s: string): (y: string)
    requires HasSignedYear(s)
    ensures 1 <= |y| && 1 + |y| <= |s| && AllDigits(y) && y == s[1..1 + |y|]
  {
    LeadingDigits(s[1..])
  }

  /** The year one step later in time: `+` years count up, `-` years count
      down in magnitude; `Number(...)` drops leading zeros. */
  function StepYear(sign: char, year: string): string
    requires AllDigits(year)
  {
    IntToString(if sign == '+' then DigitsValue(year) + 1 else DigitsValue(year) - 1)
  }

  /** `calculateFollowingYearDateTime`. */
  function FollowingYear(dateTime: string): (r: Result<string, BuildError>)
    ensures r.Err? <==> !HasSignedYear(dateTime)
    ensures r.Err? ==> r.error == DateNotInExpectedFormat(dateTime)
    ensures r.Ok? ==> |r.value| >= 18 && r.value[0] == dateTime[0]
                      && r.value[|r.value| - 16..] == "-00-00T00:00:00Z"
  {
    if !HasSignedYear(dateTime) then Err(DateNotInExpectedFormat(dateTime))
    else
      var out := [dateTime[0]] + StepYear(dateTime[0], YearDigits(dateTime)) + "-00-00T00:00:00Z";
      assert out[|out| - 16..] == "-00-00T00:00:00Z";
      Ok(out)
  }

  /** The year written between the sign and the suffix reads back as the
      input year moved one step on (except from the year `-0`, where the
      step leaves the digits). */
  lemma FollowingYearReadsBack(dateTime: string)
    requires HasSignedYear(dateTime)
    requires dateTime[0] == '-' ==> DigitsValue(YearDigits(dateTime)) > 0
    ensures var out := FollowingYear(dateTime).value;
            var y := out[1..|out| - 16];
            AllDigits(y) && (|y| > 1 ==> y[0] != '0')
            && DigitsValue(y) == if dateTime[0] == '+' then DigitsValue(YearDigits(dateTime)) + 1
                                 else DigitsValue(YearDigits(dateTime)) - 1
  {
    var n := DigitsValue(YearDigits(dateTime));
    var m := if dateTime[0] == '+' then n + 1 else n - 1;
    var out := FollowingYear(dateTime).value;
    assert StepYear(dateTime[0], YearDigits(dateTime)) == NatToString(m);
    assert out == [dateTime[0]] + NatToString(m) + "-00-00T00:00:00Z";
    assert out[1..|out| - 16] == NatToString(m);
    NatToStringRoundTrip(m);
  }

  /** `^([+-])(\d+)-(\d{2})`: the year is followed by a dash and two digits. */
  predicate HasSignedYearMonth(s: string)
  {
    HasSignedYear(s)
    && var n := 1 + |YearDigits(s)|;
       n + 3 <= |s| && s[n] == '-' && IsDigit(s[n + 1]) && IsDigit(s[n + 2])
  }

  function MonthDigits(s: string): (m: string)
    requires HasSignedYearMonth(s)
    ensures |m| == 2 && AllDigits(m)
  {
    var n := 1 + |YearDigits(s)|;
    s[n + 1..n + 3]
  }

  /** `calculateFollowingMonthDateTime`. */
  function FollowingMonth(dateTime: string): (r: Result<string, BuildError>)
    ensures r.Err? <==> !HasSignedYearMonth(dateTime)
    ensures r.Err? ==> r.error == DateNotInExpectedFormat(dateTime)
    ensures r.Ok? ==> |r.value| >= 17 && r.value[0] == dateTime[0]
                      && r.value[|r.value| - 13..] == "-00T00:00:00Z"
  {
    if !HasSignedYearMonth(dateTime) then Err(DateNotInExpectedFormat(dateTime))
    else
      var sign := dateTime[0];
      var year := YearDigits(dateTime);
      var month := MonthDigits(dateTime);
      var head := if month != "12"
        then [sign] + year + "-" + PadStart2(NatToString(DigitsValue(month) + 1))
        else [sign] + StepYear(sign, year) + "-01";
      var out := head + "-00T00:00:00Z";
      assert out[|head|..] == "-00T00:00:00Z";
      Ok(out)
  }

  /** Zeros in front do not change the value of a digit string. */
  lemma {:induction false} DigitsValueLeadingZero(s: string)
    requires AllDigits(s)
    ensures AllDigits("0" + s) && DigitsValue("0" + s) == DigitsValue(s)
    decreases |s|
  {
    if s != [] {
      var t := "0" + s;
      assert t[..|t| - 1] == "0" + s[..|s| - 1];
      DigitsValueLeadingZero(s[..|s| - 1]);
    }
  }

  /** Within a year the result is the sign, the year text, the incremented
      and zero-padded month and the fixed suffix. */
  lemma FollowingMonthText(dateTime: string)
    requires HasSignedYearMonth(dateTime) && MonthDigits(dateTime) != "12"
    ensures FollowingMonth(dateTime)
              == Ok([dateTime[0]] + YearDigits(dateTime) + "-"
                    + PadStart2(NatToString(DigitsValue(MonthDigits(dateTime)) + 1)) + "-00T00:00:00Z")
  {
  }

  /** The pieces of `head + "-" + m + suffix` at their places. */
  lemma DashedPieces(head: string, m: string, suffix: string)
    ensures var out := head + "-" + m + suffix;
            out[..|head|] == head && out[|head|] == '-' && out[|head| + 1..|out| - |suffix|] == m
  {
    var out := head + "-" + m + suffix;
    assert out == head + ("-" + m + suffix);
    assert out[|head| + 1..] == m + suffix;
  }

  /** Within a year the month text is incremented and zero-padded, and the
      year text is kept verbatim. */
  lemma FollowingMonthWithinYear(dateTime: string)
    requires HasSignedYearMonth(dateTime) && MonthDigits(dateTime) != "12"
    ensures var out := FollowingMonth(dateTime).value;
            var year := YearDigits(dateTime);
            var m := out[2 + |year|..|out| - 13];
            out[..1 + |year|] == [dateTime[0]] + year && out[1 + |year|] == '-'
            && |m| >= 2 && AllDigits(m) && DigitsValue(m) == DigitsValue(MonthDigits(dateTime)) + 1
  {
    var k := DigitsValue(MonthDigits(dateTime)) + 1;
    FollowingMonthText(dateTime);
    DashedPieces([dateTime[0]] + YearDigits(dateTime), PadStart2(NatToString(k)), "-00T00:00:00Z");
    PaddedMonthValue(k);
  }

  /** The zero-padded text of a number reads back as the number. */
  lemma PaddedMonthValue(k: nat)
    ensures AllDigits(PadStart2(NatToString(k))) && DigitsValue(PadStart2(NatToString(k))) == k
  {
    var t := NatToString(k);
    NatToStringRoundTrip(k);
    if |t| == 1 {
      assert PadStart2(t) == "0" + t;
      DigitsValueLeadingZero(t);
    }
  }

  /** In December the result is the start of January of the following year:
      the following-year text with the month set to `01`. */
  lemma FollowingMonthInDecember(dateTime: string)
    requires HasSignedYearMonth(dateTime) && MonthDigits(dateTime) == "12"
    ensures var y := FollowingYear(dateTime).value;
            FollowingMonth(dateTime) == Ok(y[..|y| - 16] + "-01-00T00:00:00Z")
  {
    var y := FollowingYear(dateTime).value;
    assert y[..|y| - 16] == [dateTime[0]] + StepYear(dateTime[0], YearDigits(dateTime));
    var head := [dateTime[0]] + StepYear(dateTime[0], YearDigits(dateTime));
    assert "-01" + "-00T00:00:00Z" == "-01-00T00:00:00Z";
    assert (head + "-01") + "-00T00:00:00Z" == head + "-01-00T00:00:00Z";
  }

  /** A greedy digit run stops at the first non-digit. */
  lemma {:induction false} LeadingDigitsStop(d: string, rest: string)
    requires AllDigits(d) && (rest == [] || !IsDigit(rest[0]))
    ensures LeadingDigits(d + rest) == d
    decreases |d|
  {
    if d == [] {
      assert d + rest == rest;
    } else {
      assert (d + rest)[1..] == d[1..] + rest;
      LeadingDigitsStop(d[1..], rest);
    }
  }

  // The examples below are built from small facts about their pieces, so
  // that no single proof has to take a whole literal apart.

  /** A sign, a year, and a text not starting with a digit: the year is
      read as the year. */
  lemma SignedYearParts(sign: char, year: string, rest: string)
    requires IsSign(sign) && |year| >= 1 && AllDigits(year) && (rest == [] || !IsDigit(rest[0]))
    ensures var s := [sign] + year + rest;
            HasSignedYear(s) && YearDigits(s) == year && s[0] == sign
  {
    var s := [sign] + year + rest;
    assert s[1..] == year + rest;
    LeadingDigitsStop(year, rest);
  }

  /** A sign, a year, a dash and two month digits: both are read back. */
  lemma SignedYearMonthParts(sign: char, year: string, month: string, rest: string)
    requires IsSign(sign) && |year| >= 1 && AllDigits(year) && |month| == 2 && AllDigits(month)
    ensures var s := [sign] + year + "-" + month + rest;
            HasSignedYearMonth(s) && YearDigits(s) == year && MonthDigits(s) == month && s[0] == sign
  {
    var s := [sign] + year + "-" + month + rest;
    var tail := "-" + month + rest;
    assert s == [sign] + year + tail;
    SignedYearParts(sign, year, tail);
    assert s[1 + |year|..] == tail;
    assert s[2 + |year|..4 + |year|] == tail[1..3] == month;
  }

  lemma Year1789Values()
    ensures DigitsValue("1789") == 1789 && NatToString(1790) == "1790"
  {
    assert NatToString(17) == "17";
    assert NatToString(178) == "178";
    assert NatToString(1789) == "1789";
    NatToStringRoundTrip(1789);
    assert NatToString(1790) == NatToString(179) + "0";
  }

  lemma Year2020Values()
    ensures DigitsValue("2020") == 2020 && NatToString(2021) == "2021"
  {
    assert NatToString(20) == "20";
    assert NatToString(202) == "202";
    assert NatToString(2020) == "2020";
    NatToStringRoundTrip(2020);
    assert NatToString(2021) == NatToString(202) + "1";
  }

  lemma MonthValues()
    ensures DigitsValue("07") == 7 && NatToString(8) == "8"
  {
    assert "07" == "0" + NatToString(7);
    DigitsValueLeadingZero(NatToString(7));
    NatToStringRoundTrip(7);
  }

  /** The result for a year given in parts: the sign, the year stepped on,
      and the suffix of the first instant of that year. */
  lemma FollowingYearOfParts(sign: char, year: string, rest: string)
    requires IsSign(sign) && |year| >= 1 && AllDigits(year) && (rest == [] || !IsDigit(rest[0]))
    ensures FollowingYear([sign] + year + rest) == Ok([sign] + StepYear(sign, year) + "-00-00T00:00:00Z")
  {
    SignedYearParts(sign, year, rest);
  }

  /** The result within a year for a date given in parts. */
  lemma FollowingMonthOfParts(sign: char, year: string, month: string, rest: string)
    requires IsSign(sign) && |year| >= 1 && AllDigits(year) && |month| == 2 && AllDigits(month) && month != "12"
    ensures FollowingMonth([sign] + year + "-" + month + rest)
              == Ok([sign] + year + "-" + PadStart2(NatToString(DigitsValue(month) + 1)) + "-00T00:00:00Z")
  {
    SignedYearMonthParts(sign, year, month, rest);
    FollowingMonthText([sign] + year + "-" + month + rest);
  }

  /** The result in December for a date given in parts. */
  lemma FollowingDecemberOfParts(sign: char, year: string, rest: string)
    requires IsSign(sign) && |year| >= 1 && AllDigits(year)
    ensures FollowingMonth([sign] + year + "-" + "12" + rest)
              == Ok([sign] + StepYear(sign, year) + "-01-00T00:00:00Z")
  {
    SignedYearMonthParts(sign, year, "12", rest);
    FollowingMonthInDecember([sign] + year + "-" + "12" + rest);
  }

  // In the examples the texts are written as their pieces: sign, year,
  // month and the rest.

  /** `+1789-07-14T00:00:00Z` is followed by `+1790-00-00T00:00:00Z`. */
  lemma FollowingYearExample(u: string)
    requires u == "+" + "1789" + "-07-14T00:00:00Z"
    ensures FollowingYear(u) == Ok("+" + "1790" + "-00-00T00:00:00Z")
  {
    FollowingYearOfParts('+', "1789", "-07-14T00:00:00Z");
    Year1789Values();
    assert StepYear('+', "1789") == "1790";
  }

  lemma UnsignedYearExample()
    ensures FollowingYear("1789-07-14T00:00:00Z") == Err(DateNotInExpectedFormat("1789-07-14T00:00:00Z"))
  {
  }

  /** `+1789-07-00T00:00:00Z` is followed by `+1789-08-00T00:00:00Z`. */
  lemma FollowingMonthExample(u: string)
    requires u == "+" + "1789" + "-" + "07" + "-00T00:00:00Z"
    ensures FollowingMonth(u) == Ok("+" + "1789" + "-" + "08" + "-00T00:00:00Z")
  {
    FollowingMonthOfParts('+', "1789", "07", "-00T00:00:00Z");
    MonthValues();
    assert PadStart2(NatToString(DigitsValue("07") + 1)) == "08";
  }

  /** `+2020-12-00T00:00:00Z` is followed by `+2021-01-00T00:00:00Z`. */
  lemma FollowingMonthDecemberExample(u: string)
    requires u == "+" + "2020" + "-" + "12" + "-00T00:00:00Z"
    ensures FollowingMonth(u) == Ok("+" + "2021" + "-01-00T00:00:00Z")
  {
    FollowingDecemberOfParts('+', "2020", "-00T00:00:00Z");
    Year2020Values();
    assert StepYear('+', "2020") == "2021";
  }

  // ---------------------------------------------------------------------
  // Variables and the fixed patterns

  /** `?{prefix}_{N}`. */
  function DateVariable(prefix: string, index: nat): (v: Term)
    ensures v.Variable? && v.name == prefix + "_" + NatToString(index)
  {
    VariableFromName(prefix + "_" + NatToString(index))
  }

  /** Two conditions never share a variable with the same prefix. */
  lemma DateVariableInjective(prefix: string, i: nat, j: nat)
    ensures DateVariable(prefix, i) == DateVariable(prefix, j) ==> i == j
  {
    if DateVariable(prefix, i) == DateVariable(prefix, j) {
      assert DateVariable(prefix, i).name[|prefix| + 1..] == NatToString(i);
      assert DateVariable(prefix, j).name[|prefix| + 1..] == NatToString(j);
      NatToStringInjective(i, j);
    }
  }

  function EntityToStatementBgp(propertyId: string, index: nat): Pattern
  {
    BgpPattern([SimpleTriple(ItemVariable, Prefixed(P, propertyId), DateVariable("statement", index))])
  }

  function StatementToStatementValueBgp(propertyId: string, index: nat): Pattern
  {
    BgpPattern([SimpleTriple(DateVariable("statement", index), Prefixed(Psv, propertyId),
                             DateVariable("statementValue", index))])
  }

  /** Binds `?{P}_{N}`, the statement's date. */
  function StatementValueToTimeValueBgp(propertyId: string, index: nat): Pattern
  {
    BgpPattern([SimpleTriple(DateVariable("statementValue", index), Prefixed(Wikibase, "timeValue"),
                             DateVariable(propertyId, index))])
  }

  function StatementValueToPrecisionBgp(index: nat): Pattern
  {
    BgpPattern([SimpleTriple(DateVariable("statementValue", index), Prefixed(Wikibase, "timePrecision"),
                             DateVariable("precision", index))])
  }

  /** `hint:Prior hint:rangeSafe "true"^^xsd:boolean`. */
  const RangeSafeHint: Pattern :=
    Bgp([SimpleTriple(NamedNode(Prefixed(Hint, "Prior")), Prefixed(Hint, "rangeSafe"),
                      Literal("true", Some(Prefixed(Xsd, "boolean"))))])

  /** `FILTER(?precision_N >= "p"^^xsd:decimal)`: statements at least as
      precise as the value. */
  function PrecisionFilter(precision: int, index: nat): Pattern
  {
    OperatorFilterPattern(TermExpr(DateVariable("precision", index)), GreaterOrEqual, TermExpr(DecimalLiteral(precision)))
  }

  function DateTimeExpr(dateTime: string): Expr
  {
    TermExpr(DateTimeLiteral(dateTime))
  }

  // ---------------------------------------------------------------------
  // The value filters

  /** The start of the following period: month precision steps the month,
      year precision the year; any other precision fails. */
  function FollowingDateTime(time: string, precision: int): (r: Result<string, BuildError>)
    ensures precision != MonthPrecision && precision != YearPrecision ==> r == Err(UnexpectedPrecision(precision))
    ensures precision == MonthPrecision ==> r == FollowingMonth(time)
    ensures precision == YearPrecision ==> r == FollowingYear(time)
  {
    if precision == MonthPrecision then FollowingMonth(time)
    else if precision == YearPrecision then FollowingYear(time)
    else Err(UnexpectedPrecision(precision))
  }

  /** `buildDateTimeFilterPattern` as the source writes it, once the start
      `following` of the next period is known. The NotMatching and LessThan
      cases compare the value with the statement date `x` the wrong way round
      (see `AsWrittenOverlaps`). */
  function PeriodFilterAsWritten(time: string, following: string, x: Expr,
                                 relation: PropertyValueRelation): (r: Result<Pattern, BuildError>)
    ensures r.Ok? <==> relation != Regardless
    ensures r.Ok? ==> r.value.Filter?
  {
    match relation
    case Matching => Ok(OperatorFilterPattern(OperationsExpression(DateTimeExpr(time), LessOrEqual, x), LogicalAnd,
                                              OperationsExpression(x, Less, DateTimeExpr(following))))
    case NotMatching => Ok(OperatorFilterPattern(OperationsExpression(DateTimeExpr(time), Less, x), LogicalOr,
                                                 OperationsExpression(x, GreaterOrEqual, DateTimeExpr(following))))
    case LessThan => Ok(OperatorFilterPattern(DateTimeExpr(time), Less, x))
    case MoreThan => Ok(OperatorFilterPattern(x, GreaterOrEqual, DateTimeExpr(following)))
    case Regardless => Err(UnexpectedRelation(relation))
  }

  /** The value filter as the source writes it: the following period's start
      first, then the comparison with the statement's date variable. */
  function DateTimeFilterAsWritten(time: string, precision: int, propertyId: string,
                                   relation: PropertyValueRelation, index: nat): (r: Result<Pattern, BuildError>)
    ensures r.Ok? <==> FollowingDateTime(time, precision).Ok? && relation != Regardless
    ensures r.Ok? ==> r == PeriodFilterAsWritten(time, FollowingDateTime(time, precision).value,
                                                 TermExpr(DateVariable(propertyId, index)), relation)
  {
    var following :- FollowingDateTime(time, precision);
    PeriodFilterAsWritten(time, following, TermExpr(DateVariable(propertyId, index)), relation)
  }

  /** The comparison with the period `[time, following)`: inside it, outside
      it, before it, or after it. */
  function PeriodFilter(time: string, following: string, x: Expr,
                        relation: PropertyValueRelation): (r: Result<Pattern, BuildError>)
    ensures r.Ok? <==> relation != Regardless
    ensures r.Ok? ==> r.value.Filter?
    ensures relation == Regardless ==> r == Err(UnexpectedRelation(relation))
  {
    match relation
    case Matching => Ok(OperatorFilterPattern(OperationsExpression(DateTimeExpr(time), LessOrEqual, x), LogicalAnd,
                                              OperationsExpression(x, Less, DateTimeExpr(following))))
    case NotMatching => Ok(OperatorFilterPattern(OperationsExpression(x, Less, DateTimeExpr(time)), LogicalOr,
                                                 OperationsExpression(x, GreaterOrEqual, DateTimeExpr(following))))
    case LessThan => Ok(OperatorFilterPattern(x, Less, DateTimeExpr(time)))
    case MoreThan => Ok(OperatorFilterPattern(x, GreaterOrEqual, DateTimeExpr(following)))
    case Regardless => Err(UnexpectedRelation(relation))
  }

  /** The value filter at month or year precision: the start of the
      following period, then the comparison of the statement's date with the
      period. */
  function DateTimeFilter(time: string, precision: int, propertyId: string,
                          relation: PropertyValueRelation, index: nat): (r: Result<Pattern, BuildError>)
    ensures r.Ok? <==> FollowingDateTime(time, precision).Ok? && relation != Regardless
    ensures r.Ok? ==> r.value.Filter?
    ensures FollowingDateTime(time, precision).Err? ==> r == Err(FollowingDateTime(time, precision).error)
    ensures FollowingDateTime(time, precision).Ok? ==>
              r == PeriodFilter(time, FollowingDateTime(time, precision).value,
                                TermExpr(DateVariable(propertyId, index)), relation)
  {
    var following :- FollowingDateTime(time, precision);
    PeriodFilter(time, following, TermExpr(DateVariable(propertyId, index)), relation)
  }

  // ---------------------------------------------------------------------
  // What a filter selects

  function Compare(op: Operator, a: int, b: int): Option<bool>
  {
    match op
    case Equal => Some(a == b)
    case NotEqual => Some(a != b)
    case Less => Some(a < b)
    case Greater => Some(a > b)
    case LessOrEqual => Some(a <= b)
    case GreaterOrEqual => Some(a >= b)
    case _ => None
  }

  /** The instant an operand denotes: the statement date `x` for the date
      variable, `instant(lexical)` for a dateTime literal. */
  function Operand(e: Expr, dateVariable: Term, x: int, instant: string -> int): Option<int>
  {
    if e.TermExpr? && e.term == dateVariable then Some(x)
    else if e.TermExpr? && e.term.Literal? && e.term.literalType == Some(XsdDateTime) then Some(instant(e.term.lexical))
    else None
  }

  /** Whether a filter expression built from comparisons, `&&` and `||`
      holds for the statement date `x`. */
  function Holds(e: Expr, dateVariable: Term, x: int, instant: string -> int): Option<bool>
  {
    if !e.Operation? || |e.args| != 2 then None
    else if e.operator == LogicalAnd || e.operator == LogicalOr then
      var a := Holds(e.args[0], dateVariable, x, instant);
      var b := Holds(e.args[1], dateVariable, x, instant);
      if a.None? || b.None? then None
      else Some(if e.operator == LogicalAnd then a.value && b.value else a.value || b.value)
    else
      var a := Operand(e.args[0], dateVariable, x, instant);
      var b := Operand(e.args[1], dateVariable, x, instant);
      if a.None? || b.None? then None else Compare(e.operator, a.value, b.value)
  }

  /** What each relation selects, given the value's period
      `[start, end)`: the dates inside it, outside it, before it, or from
      its end on. */
  function Selects(relation: PropertyValueRelation, start: int, end: int, x: int): bool
  {
    match relation
    case Matching => start <= x < end
    case NotMatching => !(start <= x < end)
    case LessThan => x < start
    case MoreThan => x >= end
    case Regardless => true
  }

  /** A comparison of two operands holds as the operands compare. */
  lemma HoldsComparison(l: Expr, op: Operator, r: Expr, v: Term, x: int, instant: string -> int)
    requires op != LogicalAnd && op != LogicalOr
    requires Operand(l, v, x, instant).Some? && Operand(r, v, x, instant).Some?
    ensures Holds(OperationsExpression(l, op, r), v, x, instant)
              == Compare(op, Operand(l, v, x, instant).value, Operand(r, v, x, instant).value)
  {
  }

  /** Over the period `[instant(time), instant(following))`, each filter holds
      for a statement date exactly when the relation selects it. */
  lemma PeriodFilterSelects(time: string, following: string, v: Term, relation: PropertyValueRelation,
                            x: int, instant: string -> int)
    requires relation != Regardless && v.Variable?
    ensures Holds(PeriodFilter(time, following, TermExpr(v), relation).value.expression, v, x, instant)
              == Some(Selects(relation, instant(time), instant(following), x))
  {
    var xe := TermExpr(v);
    var start := DateTimeExpr(time);
    var end := DateTimeExpr(following);
    PeriodOperands(time, following, v, x, instant);
    match relation {
      case Matching =>
        HoldsComparison(start, LessOrEqual, xe, v, x, instant);
        HoldsComparison(xe, Less, end, v, x, instant);
      case NotMatching =>
        HoldsComparison(xe, Less, start, v, x, instant);
        HoldsComparison(xe, GreaterOrEqual, end, v, x, instant);
      case LessThan =>
        HoldsComparison(xe, Less, start, v, x, instant);
      case MoreThan =>
        HoldsComparison(xe, GreaterOrEqual, end, v, x, instant);
    }
  }

  /** With the value's period `[instant(time), instant(following))`, each
      value filter holds for a statement date exactly when the relation
      selects it. */
  lemma DateTimeFilterSelects(time: string, precision: int, propertyId: string, relation: PropertyValueRelation,
                              index: nat, x: int, instant: string -> int)
    requires FollowingDateTime(time, precision).Ok? && relation != Regardless
    ensures var following := FollowingDateTime(time, precision).value;
            Holds(DateTimeFilter(time, precision, propertyId, relation, index).value.expression,
                  DateVariable(propertyId, index), x, instant)
              == Some(Selects(relation, instant(time), instant(following), x))
  {
    PeriodFilterSelects(time, FollowingDateTime(time, precision).value, DateVariable(propertyId, index),
                        relation, x, instant);
  }

  /** The three operands of a period filter denote the statement date, the
      start and the end of the period. */
  lemma PeriodOperands(time: string, following: string, v: Term, x: int, instant: string -> int)
    requires v.Variable?
    ensures Operand(TermExpr(v), v, x, instant) == Some(x)
    ensures Operand(DateTimeExpr(time), v, x, instant) == Some(instant(time))
    ensures Operand(DateTimeExpr(following), v, x, instant) == Some(instant(following))
  {
  }

  /** As written, a statement date just after the start of the period passes
      both the Matching and the NotMatching filter, and passes the LessThan
      filter although it is not before the period. */
  lemma PeriodAsWrittenOverlaps(time: string, following: string, v: Term, instant: string -> int)
    requires v.Variable? && instant(time) + 1 < instant(following)
    ensures var x := instant(time) + 1;
            Holds(PeriodFilterAsWritten(time, following, TermExpr(v), Matching).value.expression, v, x, instant)
              == Some(true)
            && Holds(PeriodFilterAsWritten(time, following, TermExpr(v), NotMatching).value.expression, v, x, instant)
              == Some(true)
            && Holds(PeriodFilterAsWritten(time, following, TermExpr(v), LessThan).value.expression, v, x, instant)
              == Some(true)
  {
    var x := instant(time) + 1;
    var xe := TermExpr(v);
    var start := DateTimeExpr(time);
    var end := DateTimeExpr(following);
    PeriodOperands(time, following, v, x, instant);
    HoldsComparison(start, LessOrEqual, xe, v, x, instant);
    HoldsComparison(xe, Less, end, v, x, instant);
    HoldsComparison(start, Less, xe, v, x, instant);
    HoldsComparison(xe, GreaterOrEqual, end, v, x, instant);
  }

  /** The value filters as the source writes them, on a statement date just
      after the start of the value's period: see `PeriodAsWrittenOverlaps`. */
  lemma AsWrittenOverlaps(time: string, precision: int, propertyId: string, index: nat, instant: string -> int)
    requires FollowingDateTime(time, precision).Ok?
    requires instant(time) + 1 < instant(FollowingDateTime(time, precision).value)
    ensures var v := DateVariable(propertyId, index);
            var x := instant(time) + 1;
            Holds(DateTimeFilterAsWritten(time, precision, propertyId, Matching, index).value.expression, v, x, instant)
              == Some(true)
            && Holds(DateTimeFilterAsWritten(time, precision, propertyId, NotMatching, index).value.expression, v, x, instant)
              == Some(true)
            && Holds(DateTimeFilterAsWritten(time, precision, propertyId, LessThan, index).value.expression, v, x, instant)
              == Some(true)
  {
    PeriodAsWrittenOverlaps(time, FollowingDateTime(time, precision).value, DateVariable(propertyId, index), instant);
  }

  // ---------------------------------------------------------------------
  // The condition's patterns

  /** Day precision: the statement's date is bound to the value, or compared
      with it. */
  function DayRelationPatterns(propertyId: string, time: string, relation: PropertyValueRelation, index: nat): (ps: seq<Pattern>)
    ensures |ps| == if relation == Regardless then 0 else 1
  {
    var x := TermExpr(DateVariable(propertyId, index));
    match relation
    case Matching => [Bind(DateVariable(propertyId, index), DateTimeExpr(time))]
    case NotMatching => [OperatorFilterPattern(x, NotEqual, DateTimeExpr(time))]
    case LessThan => [OperatorFilterPattern(x, Less, DateTimeExpr(time))]
    case MoreThan => [OperatorFilterPattern(x, Greater, DateTimeExpr(time))]
    case Regardless => []
  }

  /** The three statement BGPs that reach the statement's date: `?item` to
      `?statement_N`, to `?statementValue_N`, to the date `?P_N`. */
  function StatementPatterns(propertyId: string, index: nat): (ps: seq<Pattern>)
    ensures |ps| == 3 && forall k :: 0 <= k < 3 ==> ps[k].Bgp? && |ps[k].triples| == 1
    ensures ps[0].triples[0].subject == ItemVariable
    ensures ps[0].triples[0].obj == DateVariable("statement", index)
            && ps[1].triples[0].subject == DateVariable("statement", index)
    ensures ps[1].triples[0].obj == DateVariable("statementValue", index)
            && ps[2].triples[0].subject == DateVariable("statementValue", index)
    ensures ps[2].triples[0].obj == DateVariable(propertyId, index)
  {
    [EntityToStatementBgp(propertyId, index), StatementToStatementValueBgp(propertyId, index),
     StatementValueToTimeValueBgp(propertyId, index)]
  }

  function DayPrecisionPatterns(propertyId: string, time: string, relation: PropertyValueRelation, index: nat): seq<Pattern>
  {
    StatementPatterns(propertyId, index) + DayRelationPatterns(propertyId, time, relation, index)
  }

  /** At day precision the value is a one-day period
      `[instant(time), instant(time) + 1)` on a day-granular timeline: after
      the statement patterns, Matching binds the statement's date to the
      value's instant, and every other compared relation is one filter that
      holds exactly when the relation selects the statement's date. */
  lemma DayPrecisionSelects(propertyId: string, time: string, relation: PropertyValueRelation, index: nat,
                            x: int, instant: string -> int)
    ensures var ps := DayPrecisionPatterns(propertyId, time, relation, index);
            ps[..3] == StatementPatterns(propertyId, index)
            && (relation == Regardless ==> |ps| == 3)
    ensures var ps := DayPrecisionPatterns(propertyId, time, relation, index);
            var v := DateVariable(propertyId, index);
            relation == Matching ==>
              |ps| == 4 && ps[3].Bind? && ps[3].variable == v
              && Operand(ps[3].expression, v, x, instant) == Some(instant(time))
    ensures var ps := DayPrecisionPatterns(propertyId, time, relation, index);
            var v := DateVariable(propertyId, index);
            relation != Regardless && relation != Matching ==>
              |ps| == 4 && ps[3].Filter?
              && Holds(ps[3].expression, v, x, instant) == Some(Selects(relation, instant(time), instant(time) + 1, x))
  {
    var v := DateVariable(propertyId, index);
    var xe := TermExpr(v);
    var t := DateTimeExpr(time);
    PeriodOperands(time, time, v, x, instant);
    match relation {
      case NotMatching => HoldsComparison(xe, NotEqual, t, v, x, instant);
      case LessThan => HoldsComparison(xe, Less, t, v, x, instant);
      case MoreThan => HoldsComparison(xe, Greater, t, v, x, instant);
      case Matching =>
      case Regardless =>
    }
  }

  /** Month or year precision: the precision filter, the two range-safe
      hints and the period filter. */
  function LowPrecisionPatterns(propertyId: string, time: string, precision: int,
                                relation: PropertyValueRelation, index: nat): (r: Result<seq<Pattern>, BuildError>)
    ensures r.Ok? <==> DateTimeFilter(time, precision, propertyId, relation, index).Ok?
    ensures r.Ok? ==> r.value == [EntityToStatementBgp(propertyId, index), StatementToStatementValueBgp(propertyId, index),
                                  StatementValueToPrecisionBgp(index), RangeSafeHint, PrecisionFilter(precision, index),
                                  StatementValueToTimeValueBgp(propertyId, index), RangeSafeHint,
                                  DateTimeFilter(time, precision, propertyId, relation, index).value]
  {
    var filter :- DateTimeFilter(time, precision, propertyId, relation, index);
    Ok([EntityToStatementBgp(propertyId, index), StatementToStatementValueBgp(propertyId, index),
        StatementValueToPrecisionBgp(index), RangeSafeHint, PrecisionFilter(precision, index),
        StatementValueToTimeValueBgp(propertyId, index), RangeSafeHint, filter])
  }

  /** The eight low-precision patterns around a filter `f` that is not the
      precision filter have the hints at 3 and 6 and the precision filter
      at 4 only. */
  lemma HintPositions(propertyId: string, precision: int, index: nat, f: Pattern)
    requires f.Filter? && f != PrecisionFilter(precision, index)
    ensures var ps := [EntityToStatementBgp(propertyId, index), StatementToStatementValueBgp(propertyId, index),
                       StatementValueToPrecisionBgp(index), RangeSafeHint, PrecisionFilter(precision, index),
                       StatementValueToTimeValueBgp(propertyId, index), RangeSafeHint, f];
            (forall k :: 0 <= k < |ps| ==> (ps[k] == RangeSafeHint <==> k == 3 || k == 6))
            && (forall k :: 0 <= k < |ps| ==> (ps[k] == PrecisionFilter(precision, index) <==> k == 4))
  {
    var ps := [EntityToStatementBgp(propertyId, index), StatementToStatementValueBgp(propertyId, index),
               StatementValueToPrecisionBgp(index), RangeSafeHint, PrecisionFilter(precision, index),
               StatementValueToTimeValueBgp(propertyId, index), RangeSafeHint, f];
    assert RangeSafeHint.triples[0].subject.NamedNode?;
    forall k | 0 <= k < 8 && k != 3 && k != 4 && k != 6 && k != 7
      ensures ps[k] != RangeSafeHint && ps[k] != PrecisionFilter(precision, index)
    {
      assert ps[k].Bgp? && ps[k].triples[0].subject.Variable?;
    }
  }

  /** Below day precision the patterns carry exactly two range-safe hints
      (after the precision BGP and after the date BGP) and exactly one
      precision filter. */
  lemma LowPrecisionHints(propertyId: string, time: string, precision: int, relation: PropertyValueRelation,
                          index: nat)
    requires LowPrecisionPatterns(propertyId, time, precision, relation, index).Ok?
    ensures var ps := LowPrecisionPatterns(propertyId, time, precision, relation, index).value;
            forall k :: 0 <= k < |ps| ==> (ps[k] == RangeSafeHint <==> k == 3 || k == 6)
    ensures var ps := LowPrecisionPatterns(propertyId, time, precision, relation, index).value;
            forall k :: 0 <= k < |ps| ==> (ps[k] == PrecisionFilter(precision, index) <==> k == 4)
  {
    ValueFilterIsNotPrecisionFilter(time, precision, propertyId, relation, index);
    HintPositions(propertyId, precision, index, DateTimeFilter(time, precision, propertyId, relation, index).value);
  }

  /** The value filter is never the precision filter: it denotes a truth
      value for every statement date, while the precision filter compares
      with a decimal, which denotes no instant. */
  lemma ValueFilterIsNotPrecisionFilter(time: string, precision: int, propertyId: string,
                                        relation: PropertyValueRelation, index: nat)
    requires DateTimeFilter(time, precision, propertyId, relation, index).Ok?
    ensures DateTimeFilter(time, precision, propertyId, relation, index).value.Filter?
    ensures DateTimeFilter(time, precision, propertyId, relation, index).value != PrecisionFilter(precision, index)
  {
    var instant := (s: string) => 0;
    DateTimeFilterSelects(time, precision, propertyId, relation, index, 0, instant);
    PrecisionFilterDenotesNoTruthValue(precision, index, DateVariable(propertyId, index), instant);
  }

  /** The precision filter compares a precision with a decimal, neither of
      which is a statement date or an instant. */
  lemma PrecisionFilterDenotesNoTruthValue(precision: int, index: nat, v: Term, instant: string -> int)
    ensures PrecisionFilter(precision, index).Filter?
    ensures Holds(PrecisionFilter(precision, index).expression, v, 0, instant).None?
  {
  }

  /** Below day precision the last pattern is the value filter, which holds
      for a statement date exactly when the relation selects it from the
      value's period. */
  lemma LowPrecisionLastFilter(propertyId: string, time: string, precision: int, relation: PropertyValueRelation,
                               index: nat, x: int, instant: string -> int)
    requires LowPrecisionPatterns(propertyId, time, precision, relation, index).Ok?
    ensures var ps := LowPrecisionPatterns(propertyId, time, precision, relation, index).value;
            var following := FollowingDateTime(time, precision).value;
            ps[|ps| - 1].Filter?
            && Holds(ps[|ps| - 1].expression, DateVariable(propertyId, index), x, instant)
               == Some(Selects(relation, instant(time), instant(following), x))
  {
    DateTimeFilterSelects(time, precision, propertyId, relation, index, x, instant);
  }

  /** A compared date: the value must be a date with a precision; day
      precision (11) is compared directly, any other goes through a period. */
  function ValuePatterns(propertyId: string, value: ConditionValue, relation: PropertyValueRelation,
                         index: nat): (r: Result<seq<Pattern>, BuildError>)
    ensures !value.DateTimeValue? ==> r == Err(UnexpectedDateValue)
    ensures value.DateTimeValue? && value.precision == DayPrecision ==>
              r == Ok(DayPrecisionPatterns(propertyId, value.time, relation, index))
    ensures value.DateTimeValue? && value.precision != DayPrecision ==>
              r == LowPrecisionPatterns(propertyId, value.time, value.precision, relation, index)
  {
    if !value.DateTimeValue? then Err(UnexpectedDateValue)
    else if value.precision == DayPrecision then Ok(DayPrecisionPatterns(propertyId, value.time, relation, index))
    else LowPrecisionPatterns(propertyId, value.time, value.precision, relation, index)
  }

  /** The statement patterns, grouped with the reference filter when there
      is one, inside one MINUS when negated. */
  function Wrap(patterns: seq<Pattern>, reference: ReferenceRelation, negate: bool, index: nat): (ps: seq<Pattern>)
    ensures negate ==> |ps| == 1 && ps[0].Minus?
    ensures !negate && reference != ReferencesRegardless ==> |ps| == 1 && ps[0].Group?
    ensures !negate && reference == ReferencesRegardless ==> ps == patterns
    ensures negate && reference == ReferencesRegardless ==> ps == [Minus(patterns)]
    ensures reference != ReferencesRegardless ==>
              var g := if negate then ps[0].patterns else ps;
              g == [Group(patterns + [ReferenceFilterPattern(reference, DateVariable("statement", index)).value])]
  {
    var filter := ReferenceFilterPattern(reference, DateVariable("statement", index));
    var grouped := if filter.Some? then [Group(patterns + [filter.value])] else patterns;
    if negate then [Minus(grouped)] else grouped
  }

  /** The patterns of one date condition. The datatype is not checked here. */
  function DatePatterns(c: Condition, index: nat): (r: Result<seq<Pattern>, BuildError>)
    ensures r.Err? <==> c.propertyValueRelation != Regardless
                        && (!c.value.DateTimeValue?
                            || (c.value.precision != DayPrecision
                                && FollowingDateTime(c.value.time, c.value.precision).Err?))
    ensures c.propertyValueRelation == Regardless ==>
              r == Ok(Wrap(StatementPatterns(c.propertyId, index), c.referenceRelation, c.negate, index))
    ensures c.propertyValueRelation != Regardless ==>
              r == (var ps :- ValuePatterns(c.propertyId, c.value, c.propertyValueRelation, index);
                    Ok(Wrap(ps, c.referenceRelation, c.negate, index)))
  {
    var patterns :- if c.propertyValueRelation == Regardless
      then Ok(StatementPatterns(c.propertyId, index))
      else ValuePatterns(c.propertyId, c.value, c.propertyValueRelation, index);
    Ok(Wrap(patterns, c.referenceRelation, c.negate, index))
  }

  /** Regardless of value, the value is never looked at. */
  lemma RegardlessIgnoresValue(c: Condition, v: ConditionValue, index: nat)
    requires c.propertyValueRelation == Regardless
    ensures DatePatterns(c.(value := v), index) == DatePatterns(c, index)
  {
  }

  /** At day precision there is no precision filter and there are no hints:
      only the three statement BGPs and at most one more pattern. */
  lemma DayPrecisionHasNoPrecisionFilter(c: Condition, index: nat)
    requires c.value.DateTimeValue? && c.value.precision == DayPrecision
    requires c.propertyValueRelation != Regardless && !c.negate && c.referenceRelation == ReferencesRegardless
    ensures var r := DatePatterns(c, index);
            r.Ok? && |r.value| == 4 && RangeSafeHint !in r.value
            && PrecisionFilter(DayPrecision, index) !in r.value
  {
    var r := DatePatterns(c, index).value;
    assert r == StatementPatterns(c.propertyId, index) + DayRelationPatterns(c.propertyId, c.value.time, c.propertyValueRelation, index);
    assert RangeSafeHint != r[3];
  }

  /** The builder keeps the index of the condition it is working on; the
      variable names are made from it. */
  class DateValuePatternBuilder {
    var conditionIndex: Option<nat>

    constructor()
      ensures conditionIndex.None?
    {
      conditionIndex := None;
    }

    /** `getConditionVariable`: fails while no index is set. */
    function ConditionVariable(prefix: string): (r: Result<Term, BuildError>)
      reads this
      ensures conditionIndex.None? <==> r.Err?
      ensures r.Err? ==> r.error == ConditionIndexNotInitialized
      ensures r.Ok? ==> r.value == DateVariable(prefix, conditionIndex.value)
    {
      if conditionIndex.None? then Err(ConditionIndexNotInitialized)
      else Ok(DateVariable(prefix, conditionIndex.value))
    }

    /** `buildValuePatternFromCondition`: records the index, then builds. */
    method BuildValuePatternFromCondition(c: Condition, index: nat) returns (r: Result<seq<Pattern>, BuildError>)
      modifies this
      ensures conditionIndex == Some(index)
      ensures r == DatePatterns(c, index)
    {
      conditionIndex := Some(index);
      var patterns: seq<Pattern>;
      if c.propertyValueRelation == Regardless {
        patterns := StatementPatterns(c.propertyId, index);
      } else {
        var built := ValuePatterns(c.propertyId, c.value, c.propertyValueRelation, index);
        if built.Err? {
          return Err(built.error);
        }
        patterns := built.value;
      }
      var statement := ConditionVariable("statement").value;
      var filter := ReferenceFilterPattern(c.referenceRelation, statement);
      if filter.Some? {
        patterns := [Group(patterns + [filter.value])];
      }
      if c.negate {
        patterns := [Minus(patterns)];
      }
      r := Ok(patterns);
    }
  }
}
