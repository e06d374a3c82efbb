/**
 * The symbol decoder of the position monitor (`split_symbol` in
 * Monitor/options.py): a Kite-style option trading symbol such as
 * "NIFTY24DEC24900PE" (monthly) or "NIFTY2592324900PE" (weekly) is split
 * into underlying, expiry, strike and option type.
 */
module Symbols {
  import opened Wrappers
  import opened Text
  import opened Dates

  datatype Symbol = Symbol(underlying: string, expiry: Date, strike: int, optionType: Option<string>)

  /** `split_symbol`'s three ways out: `None`, an exception, or the four fields. */
  datatype Decoded = NoMatch | Raises | Parsed(symbol: Symbol)

  /** `EXPIRY_WEEKDAY.get(underlying, 1)`: Thursday (3) for SENSEX, Tuesday (1) otherwise. */
  function ExpiryWeekday(underlying: string): (wd: int)
    ensures 0 <= wd < 7
    ensures underlying == "SENSEX" ==> wd == 3
    ensures underlying in {"NIFTY", "BANKNIFTY", "FINNIFTY"} ==> wd == 1
    ensures underlying != "SENSEX" ==> wd == 1
  {
    if underlying == "SENSEX" then 3 else 1
  }

  // ---------------------------------------------------------------------
  // The regular expression ([A-Z]+)(.+?)(CE|PE)?$ under re.match, with the
  // backtracking order Python uses: the capital run is tried longest first,
  // the lazy middle shortest first, the optional suffix before the empty
  // one; '.' does not match a newline and '$' also matches just before a
  // final newline.
  // ---------------------------------------------------------------------

  datatype RegexMatch = RegexMatch(underlying: string, middle: string, optionType: Option<string>)

  /** Length of the run of capitals that starts the string. */
  function CapitalRun(s: string): (n: nat)
    ensures n <= |s|
    ensures forall k | 0 <= k < n :: IsUpper(s[k])
    ensures n < |s| ==> !IsUpper(s[n])
  {
    if s != [] && IsUpper(s[0]) then 1 + CapitalRun(s[1..]) else 0
  }

  /** `$` matches at position `p`. */
  predicate AtEnd(s: string, p: nat) {
    p == |s| || (p + 1 == |s| && s[p] == '\n')
  }

  /** `(CE|PE)$` matches at position `p`; the suffix matched. */
  function SuffixAt(s: string, p: nat): Option<string> {
    if p + 2 <= |s| && (s[p..p + 2] == "CE" || s[p..p + 2] == "PE") && AtEnd(s, p + 2)
    then Some(s[p..p + 2]) else None
  }

  /** The lazy middle `s[l..p]`, grown one character at a time until the rest matches. */
  function LazyMiddle(s: string, l: nat, p: nat): (r: Option<(nat, Option<string>)>)
    requires l < p <= |s|
    ensures r.Some? ==> p <= r.value.0 <= |s|
    decreases |s| - p
  {
    if s[p - 1] == '\n' then None
    else if SuffixAt(s, p).Some? then Some((p, SuffixAt(s, p)))
    else if AtEnd(s, p) then Some((p, None))
    else if p == |s| then None
    else LazyMiddle(s, l, p + 1)
  }

  /** Try a capital run of length `l`, then shorter ones. */
  function MatchFrom(s: string, l: nat): Option<RegexMatch>
    requires l <= |s|
    decreases l
  {
    if l == 0 then None
    else if l < |s| then
      match LazyMiddle(s, l, l + 1)
      case Some((p, t)) => Some(RegexMatch(s[..l], s[l..p], t))
      case None => MatchFrom(s, l - 1)
    else MatchFrom(s, l - 1)
  }

  function MatchSymbol(s: string): Option<RegexMatch> {
    MatchFrom(s, CapitalRun(s))
  }

  /** `re.search(r"[A-Z]{3}", middle)` finds something. */
  predicate HasThreeCapitals(m: string) {
    exists i | 0 <= i && i + 3 <= |m| :: IsUpper(m[i]) && IsUpper(m[i + 1]) && IsUpper(m[i + 2])
  }

  /** `int` of at most two characters lies in -9..99. */
  lemma ShortIntRange(s: string)
    requires |s| <= 2 && ParseInt(s).Some?
    ensures -9 <= ParseInt(s).value <= 99
  {
    if s[0] == '-' || s[0] == '+' {
      var d := s[1..];
      assert |d| == 1 && d[..0] == [];
      assert DigitsValue(d) == DigitValue(d[0]);
    } else if |s| == 2 {
      assert s[..1][..0] == [];
      assert DigitsValue(s[..1]) == DigitValue(s[0]);
    } else {
      assert s[..0] == [];
    }
  }

  /**
   * The monthly layout: two year digits, a three-letter month, then the strike;
   * the expiry is the last designated weekday of that month.
   */
  function DecodeMonthly(underlying: string, middle: string, optionType: Option<string>): (r: Decoded)
    ensures r != NoMatch
    ensures r.Parsed? ==> Valid(r.symbol.expiry) && r.symbol.underlying == underlying && r.symbol.optionType == optionType
  {
    var yy := ParseInt(PySlice(middle, 0, 2));
    var month := MonthFromAbbrev(PySlice(middle, 2, 5));
    var strike := ParseInt(PySlice(middle, 5, |middle|));
    if yy.None? || month.None? || strike.None? then Raises
    else
      ShortIntRange(PySlice(middle, 0, 2));
      var year := 2000 + yy.value;
      var expiry := Date(year, month.value, LastWeekdayDay(year, month.value, ExpiryWeekday(underlying)));
      Parsed(Symbol(underlying, expiry, strike.value, optionType))
  }

  /**
   * The weekly layout as the decoder reads it: the strike is the last five
   * characters; of the date part before them, the first two characters are
   * the day, the last two the year, and whatever lies between the month
   * (1 when nothing does).
   */
  function DecodeWeekly(underlying: string, middle: string, optionType: Option<string>): (r: Decoded)
    ensures r != NoMatch
    ensures r.Parsed? ==> Valid(r.symbol.expiry) && r.symbol.underlying == underlying && r.symbol.optionType == optionType
  {
    var datePart := PySlice(middle, 0, -5);
    var yy := ParseInt(PySlice(datePart, -2, |datePart|));
    var monthText := PySlice(datePart, 2, -2);
    var mm := if |monthText| > 0 then ParseInt(monthText) else Some(1);
    var dd := ParseInt(PySlice(datePart, 0, 2));
    var strike := ParseInt(PySlice(middle, -5, |middle|));
    if yy.None? || mm.None? || dd.None? || strike.None? then Raises
    else
      var expiry := Date(2000 + yy.value, mm.value, dd.value);
      if Valid(expiry) then Parsed(Symbol(underlying, expiry, strike.value, optionType))
      else Raises
  }

  /** `split_symbol(symbol)`. */
  function SplitSymbol(s: string): (r: Decoded)
    ensures r.Parsed? ==> Valid(r.symbol.expiry)
    ensures r == NoMatch <==> MatchSymbol(s).None?
  {
    match MatchSymbol(s)
    case None => NoMatch
    case Some(m) =>
      if HasThreeCapitals(m.middle) then DecodeMonthly(m.underlying, m.middle, m.optionType)
      else DecodeWeekly(m.underlying, m.middle, m.optionType)
  }

  // ---------------------------------------------------------------------
  // What the regular expression does on well-formed symbols.
  // ---------------------------------------------------------------------

  predicate NoNewline(s: string) {
    forall k | 0 <= k < |s| :: s[k] != '\n'
  }

  predicate AllUpper(s: string) {
    forall k | 0 <= k < |s| :: IsUpper(s[k])
  }

  /** A symbol made of a capital run, a middle that starts with a non-capital, and CE or PE. */
  predicate WellFormed(u: string, mid: string, t: string) {
    |u| > 0 && AllUpper(u) && |mid| > 0 && !IsUpper(mid[0]) && NoNewline(mid)
    && (t == "CE" || t == "PE")
  }

  lemma {:induction false} CapitalRunOfPrefix(u: string, rest: string)
    requires AllUpper(u) && (rest == [] || !IsUpper(rest[0]))
    ensures CapitalRun(u + rest) == |u|
    decreases |u|
  {
    if u != [] {
      assert (u + rest)[1..] == u[1..] + rest;
      CapitalRunOfPrefix(u[1..], rest);
    } else {
      assert u + rest == rest;
    }
  }

  lemma {:induction false} LazyMiddleReachesSuffix(u: string, mid: string, t: string, p: nat)
    requires WellFormed(u, mid, t)
    requires |u| < p <= |u| + |mid|
    ensures LazyMiddle(u + mid + t, |u|, p) == Some((|u| + |mid|, Some(t)))
    decreases |u| + |mid| - p
  {
    var s := u + mid + t;
    assert s[p - 1] == mid[p - 1 - |u|];
    if p == |u| + |mid| {
      assert s[p..p + 2] == t;
    } else {
      assert s[|s| - 1] == 'E';
      assert SuffixAt(s, p).None?;
      LazyMiddleReachesSuffix(u, mid, t, p + 1);
    }
  }

  /** On a well-formed symbol the three groups are exactly its three parts. */
  lemma MatchWellFormed(u: string, mid: string, t: string)
    requires WellFormed(u, mid, t)
    ensures MatchSymbol(u + mid + t) == Some(RegexMatch(u, mid, Some(t)))
  {
    var s := u + mid + t;
    assert s == u + (mid + t);
    CapitalRunOfPrefix(u, mid + t);
    LazyMiddleReachesSuffix(u, mid, t, |u| + 1);
    assert s[..|u|] == u;
    assert s[|u|..|u| + |mid|] == mid;
  }

  lemma {:induction false} LazyMiddleAlwaysEnds(s: string, l: nat, p: nat)
    requires l < p <= |s| && NoNewline(s)
    ensures LazyMiddle(s, l, p).Some?
    decreases |s| - p
  {
    if SuffixAt(s, p).None? && !AtEnd(s, p) {
      LazyMiddleAlwaysEnds(s, l, p + 1);
    }
  }

  /**
   * On text without newlines `split_symbol` returns `None` exactly when the
   * symbol does not start with a capital letter or is a single character.
   */
  lemma NoMatchIff(s: string)
    requires NoNewline(s)
    ensures SplitSymbol(s) == NoMatch <==> CapitalRun(s) == 0 || |s| < 2
  {
    var l := CapitalRun(s);
    if l > 0 && |s| >= 2 {
      if l < |s| {
        LazyMiddleAlwaysEnds(s, l, l + 1);
      } else {
        LazyMiddleAlwaysEnds(s, l - 1, l);
        assert MatchFrom(s, l) == MatchFrom(s, l - 1);
      }
      assert MatchSymbol(s).Some?;
    } else if l == 1 {
      assert MatchFrom(s, 1) == MatchFrom(s, 0);
    }
  }

  // ---------------------------------------------------------------------
  // Decoding of the two layouts.
  // ---------------------------------------------------------------------

  /**
   * Monthly layout: the year is 2000 plus the two leading digits, the month is
   * named by the next three letters, the strike is the integer after them, and
   * the expiry is the last designated weekday of that month.
   */
  lemma DecodeMonthlyFields(u: string, mid: string, t: string)
    requires WellFormed(u, mid, t) && HasThreeCapitals(mid)
    requires ParseInt(PySlice(mid, 0, 2)).Some? && MonthFromAbbrev(PySlice(mid, 2, 5)).Some?
    requires ParseInt(PySlice(mid, 5, |mid|)).Some?
    ensures SplitSymbol(u + mid + t).Parsed?
    ensures var sym := SplitSymbol(u + mid + t).symbol;
      && sym.underlying == u && sym.optionType == Some(t)
      && sym.strike == ParseInt(PySlice(mid, 5, |mid|)).value
      && sym.expiry.year == 2000 + ParseInt(PySlice(mid, 0, 2)).value
      && sym.expiry.month == MonthFromAbbrev(PySlice(mid, 2, 5)).value
      && IsLastWeekdayOf(sym.expiry, sym.expiry.year, sym.expiry.month, ExpiryWeekday(u))
  {
    MonthlyIsDecodeMonthly(u, mid, t);
    ShortIntRange(PySlice(mid, 0, 2));
  }

  lemma MonthlyIsDecodeMonthly(u: string, mid: string, t: string)
    requires WellFormed(u, mid, t) && HasThreeCapitals(mid)
    ensures SplitSymbol(u + mid + t) == DecodeMonthly(u, mid, Some(t))
  {
    MatchWellFormed(u, mid, t);
  }

  lemma WeeklyIsDecodeWeekly(u: string, mid: string, t: string)
    requires WellFormed(u, mid, t) && !HasThreeCapitals(mid)
    ensures SplitSymbol(u + mid + t) == DecodeWeekly(u, mid, Some(t))
  {
    MatchWellFormed(u, mid, t);
  }

  /**
   * Weekly layout: strike from the last five characters of the middle, day
   * from the first two, year from the two before the strike, and the month
   * from what lies between (1 when nothing does).
   */
  lemma DecodeWeeklyFields(u: string, mid: string, t: string)
    requires WellFormed(u, mid, t) && !HasThreeCapitals(mid)
    requires SplitSymbol(u + mid + t).Parsed?
    ensures var sym := SplitSymbol(u + mid + t).symbol;
      sym.underlying == u && sym.optionType == Some(t) && WeeklyFields(sym, mid)
  {
    WeeklyIsDecodeWeekly(u, mid, t);
    WeeklyParsedFields(u, mid, Some(t));
  }

  /**
   * How the weekly fields are read from the middle: the strike from its last
   * five characters; of the date part before them, the day from the first
   * two, the year from the last two and the month from what lies between
   * (1 when nothing does).
   */
  predicate WeeklyFields(sym: Symbol, mid: string) {
    var datePart := PySlice(mid, 0, -5);
    var monthText := PySlice(datePart, 2, -2);
    && Some(sym.strike) == ParseInt(PySlice(mid, -5, |mid|))
    && Some(sym.expiry.day) == ParseInt(PySlice(datePart, 0, 2))
    && Some(sym.expiry.year - 2000) == ParseInt(PySlice(datePart, -2, |datePart|))
    && Some(sym.expiry.month) == (if |monthText| > 0 then ParseInt(monthText) else Some(1))
    && Valid(sym.expiry)
  }

  /** The fields of a weekly decode that succeeded. */
  lemma WeeklyParsedFields(u: string, mid: string, t: Option<string>)
    requires DecodeWeekly(u, mid, t).Parsed?
    ensures var sym := DecodeWeekly(u, mid, t).symbol;
      sym.underlying == u && sym.optionType == t && WeeklyFields(sym, mid)
  {
    var datePart := PySlice(mid, 0, -5);
    var monthText := PySlice(datePart, 2, -2);
    var yy := ParseInt(PySlice(datePart, -2, |datePart|));
    var mm := if |monthText| > 0 then ParseInt(monthText) else Some(1);
    var dd := ParseInt(PySlice(datePart, 0, 2));
    var strike := ParseInt(PySlice(mid, -5, |mid|));
    assert yy.Some? && mm.Some? && dd.Some? && strike.Some?;
    assert DecodeWeekly(u, mid, t) == Parsed(Symbol(u, Date(2000 + yy.value, mm.value, dd.value), strike.value, t));
  }

  /** A middle whose year, month and strike fields read back decodes to the monthly expiry they name. */
  lemma MonthlyFromFields(u: string, mid: string, t: Option<string>, yy: int, m: int, strike: int)
    requires 0 <= yy && ParseInt(PySlice(mid, 0, 2)) == Some(yy)
    requires MonthFromAbbrev(PySlice(mid, 2, 5)) == Some(m) && ParseInt(PySlice(mid, 5, |mid|)) == Some(strike)
    ensures DecodeMonthly(u, mid, t)
      == Parsed(Symbol(u, Date(2000 + yy, m, LastWeekdayDay(2000 + yy, m, ExpiryWeekday(u))), strike, t))
  {
  }

  /** Fields that read back as a valid symbol are what the weekly decode returns. */
  lemma WeeklyFromFields(u: string, mid: string, t: Option<string>, sym: Symbol)
    requires sym.underlying == u && sym.optionType == t && WeeklyFields(sym, mid)
    ensures DecodeWeekly(u, mid, t) == Parsed(sym)
  {
  }

  /** `IntToStringRoundTrip` at a numeral written out as a literal. */
  lemma ReadNumeral(n: nat, s: string)
    requires s == IntToString(n)
    ensures ParseInt(s) == Some(n)
  {
    IntToStringRoundTrip(n);
  }

  lemma Numeral24900()
    ensures ParseInt("24900") == Some(24900)
  {
    ReadNumeral(24900, "24900");
  }

  lemma LastTuesdayOfDecember2024()
    ensures LastWeekdayDay(2024, 12, 1) == 31
  {
    var d := Date(2024, 12, 31);
    assert DaysBeforeYear(2024) == 738885;
    assert Ordinal(d) == 739251;
    assert Weekday(d) == 1;
    LastWeekdayUnique(Date(2024, 12, LastWeekdayDay(2024, 12, 1)), d, 2024, 12, 1);
  }

  lemma MonthlyExampleFields()
    ensures PySlice("24DEC24900", 0, 2) == "24" && PySlice("24DEC24900", 2, 5) == "DEC"
    ensures PySlice("24DEC24900", 5, 10) == "24900"
  {
  }

  lemma MonthOfDec()
    ensures MonthFromAbbrev("DEC") == Some(12)
  {
    MonthFromAbbrevInverse(12);
    assert MonthName(12) == "DEC";
  }

  lemma MonthlyExampleHasMonth()
    ensures HasThreeCapitals("24DEC24900")
  {
    var mid := "24DEC24900";
    assert IsUpper(mid[2]) && IsUpper(mid[3]) && IsUpper(mid[4]);
  }

  lemma MonthlyExampleWellFormed()
    ensures WellFormed("NIFTY", "24DEC24900", "PE")
  {
    var mid := "24DEC24900";
    forall k | 0 <= k < |mid| ensures mid[k] != '\n' { }
  }

  /** A monthly NIFTY put expires on the last Tuesday of its month: 31 December 2024. */
  lemma MonthlyExample()
    ensures SplitSymbol("NIFTY24DEC24900PE") == Parsed(Symbol("NIFTY", Date(2024, 12, 31), 24900, Some("PE")))
  {
    var s := "NIFTY" + "24DEC24900" + "PE";
    assert s == "NIFTY24DEC24900PE";
    MonthlyExampleHasMonth();
    MonthlyExampleWellFormed();
    MonthlyIsDecodeMonthly("NIFTY", "24DEC24900", "PE");
    MonthlyExampleDecode();
  }

  lemma MonthlyExampleDecode()
    ensures DecodeMonthly("NIFTY", "24DEC24900", Some("PE")) == Parsed(Symbol("NIFTY", Date(2024, 12, 31), 24900, Some("PE")))
  {
    MonthlyExampleFields();
    MonthOfDec();
    MonthlyExampleNumerals();
    MonthlyFromFields("NIFTY", "24DEC24900", Some("PE"), 24, 12, 24900);
    LastTuesdayOfDecember2024();
  }

  lemma MonthlyExampleNumerals()
    ensures ParseInt("24") == Some(24) && ParseInt("24900") == Some(24900)
  {
    ReadNumeral(24, "24");
    Numeral24900();
  }

  lemma WeeklyExampleFields()
    ensures PySlice("2592324900", 0, -5) == "25923" && PySlice("2592324900", -5, 10) == "24900"
    ensures PySlice("25923", -2, 5) == "23" && PySlice("25923", 2, -2) == "9" && PySlice("25923", 0, 2) == "25"
    ensures !HasThreeCapitals("2592324900")
  {
    var mid := "2592324900";
    forall i | 0 <= i && i + 3 <= |mid| ensures !IsUpper(mid[i]) { }
  }

  /** A weekly symbol "NIFTY2592324900PE" reads as day 25, month 9, year 2023. */
  lemma WeeklyExample()
    ensures SplitSymbol("NIFTY2592324900PE") == Parsed(Symbol("NIFTY", Date(2023, 9, 25), 24900, Some("PE")))
  {
    var s := "NIFTY" + "2592324900" + "PE";
    assert s == "NIFTY2592324900PE";
    WeeklyExampleFields();
    WeeklyIsDecodeWeekly("NIFTY", "2592324900", "PE");
    WeeklyExampleDecode();
  }

  lemma WeeklyExampleDecode()
    ensures DecodeWeekly("NIFTY", "2592324900", Some("PE")) == Parsed(Symbol("NIFTY", Date(2023, 9, 25), 24900, Some("PE")))
  {
    WeeklyExampleFields();
    WeeklyExampleNumerals();
    WeeklyFromFields("NIFTY", "2592324900", Some("PE"), Symbol("NIFTY", Date(2023, 9, 25), 24900, Some("PE")));
  }

  lemma WeeklyExampleNumerals()
    ensures ParseInt("23") == Some(23) && ParseInt("9") == Some(9)
    ensures ParseInt("25") == Some(25) && ParseInt("24900") == Some(24900)
  {
    ReadNumeral(23, "23");
    ReadNumeral(9, "9");
    ReadNumeral(25, "25");
    Numeral24900();
  }

  // ---------------------------------------------------------------------
  // Monthly symbols built from their parts
  // ---------------------------------------------------------------------

  lemma MonthNameUpper(m: int)
    requires 1 <= m <= 12
    ensures AllUpper(MonthName(m))
  {
  }

  /** A monthly symbol built from its parts decodes to those parts. */
  lemma MonthlyLayout(u: string, yy: nat, m: int, strike: nat, t: string)
    requires |u| > 0 && AllUpper(u) && yy < 100 && 1 <= m <= 12 && (t == "CE" || t == "PE")
    ensures var r := SplitSymbol(u + Pad2(yy) + MonthName(m) + IntToString(strike) + t);
      && r.Parsed? && r.symbol.underlying == u && r.symbol.strike == strike && r.symbol.optionType == Some(t)
      && r.symbol.expiry.year == 2000 + yy && r.symbol.expiry.month == m
      && IsLastWeekdayOf(r.symbol.expiry, 2000 + yy, m, ExpiryWeekday(u))
  {
    var mid := Pad2(yy) + MonthName(m) + IntToString(strike);
    assert u + Pad2(yy) + MonthName(m) + IntToString(strike) + t == u + mid + t;
    MonthlyMiddleShape(yy, m, strike);
    MonthlyMiddleSlices(yy, m, strike);
    MonthlyMiddleDecodes(u, mid, t, yy, m, strike);
  }

  lemma MonthlyMiddleDecodes(u: string, mid: string, t: string, yy: nat, m: int, strike: nat)
    requires WellFormed(u, mid, t) && HasThreeCapitals(mid) && yy < 100 && 1 <= m <= 12
    requires PySlice(mid, 0, 2) == Pad2(yy) && PySlice(mid, 2, 5) == MonthName(m)
    requires PySlice(mid, 5, |mid|) == IntToString(strike)
    ensures var r := SplitSymbol(u + mid + t);
      && r.Parsed? && r.symbol.underlying == u && r.symbol.strike == strike && r.symbol.optionType == Some(t)
      && r.symbol.expiry.year == 2000 + yy && r.symbol.expiry.month == m
      && IsLastWeekdayOf(r.symbol.expiry, 2000 + yy, m, ExpiryWeekday(u))
  {
    Pad2RoundTrip(yy);
    IntToStringRoundTrip(strike);
    MonthFromAbbrevInverse(m);
    DecodeMonthlyFields(u, mid, t);
  }

  /** The middle of a monthly symbol starts with a digit, holds the month's capitals and no newline. */
  lemma MonthlyMiddleShape(yy: nat, m: int, strike: nat)
    requires yy < 100 && 1 <= m <= 12
    ensures var mid := Pad2(yy) + MonthName(m) + IntToString(strike);
      !IsUpper(mid[0]) && NoNewline(mid) && HasThreeCapitals(mid)
  {
    var mid := Pad2(yy) + MonthName(m) + IntToString(strike);
    MonthNameUpper(m);
    assert mid[0] == Pad2(yy)[0];
    assert IsUpper(mid[2]) && IsUpper(mid[3]) && IsUpper(mid[4]) by {
      assert mid[2..5] == MonthName(m);
    }
    forall k | 0 <= k < |mid| ensures mid[k] != '\n' {
      if k < 2 { assert mid[k] == Pad2(yy)[k]; }
      else if k < 5 { assert mid[k] == MonthName(m)[k - 2]; }
      else { assert mid[k] == IntToString(strike)[k - 5]; }
    }
  }

  /** The fixed slices of a monthly middle give back the year, the month and the strike text. */
  lemma MonthlyMiddleSlices(yy: nat, m: int, strike: nat)
    requires yy < 100 && 1 <= m <= 12
    ensures var mid := Pad2(yy) + MonthName(m) + IntToString(strike);
      && PySlice(mid, 0, 2) == Pad2(yy)
      && PySlice(mid, 2, 5) == MonthName(m)
      && PySlice(mid, 5, |mid|) == IntToString(strike)
  {
    var mid := Pad2(yy) + MonthName(m) + IntToString(strike);
    assert mid[..2] == Pad2(yy);
    assert mid[2..5] == MonthName(m);
    assert mid[5..] == IntToString(strike);
  }

  /** Two monthly symbols that differ only in the strike decode to the same expiry. */
  lemma MonthlyExpiryUnique(u: string, yy: nat, m: int, strike: nat, newStrike: nat, t: string)
    requires |u| > 0 && AllUpper(u) && yy < 100 && 1 <= m <= 12 && (t == "CE" || t == "PE")
    requires SplitSymbol(u + Pad2(yy) + MonthName(m) + IntToString(strike) + t).Parsed?
    requires SplitSymbol(u + Pad2(yy) + MonthName(m) + IntToString(newStrike) + t).Parsed?
    ensures SplitSymbol(u + Pad2(yy) + MonthName(m) + IntToString(strike) + t).symbol.expiry
         == SplitSymbol(u + Pad2(yy) + MonthName(m) + IntToString(newStrike) + t).symbol.expiry
  {
    MonthlyLayout(u, yy, m, strike, t);
    MonthlyLayout(u, yy, m, newStrike, t);
    var e1 := SplitSymbol(u + Pad2(yy) + MonthName(m) + IntToString(strike) + t).symbol.expiry;
    var e2 := SplitSymbol(u + Pad2(yy) + MonthName(m) + IntToString(newStrike) + t).symbol.expiry;
    LastWeekdayUnique(e1, e2, 2000 + yy, m, ExpiryWeekday(u));
  }
}
