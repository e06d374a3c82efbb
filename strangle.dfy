/**
 * The pure and loop pieces of the short-strangle strategy script
 * Strategies/my_strangle.py: the next weekly expiry, the trading-symbol
 * encoder, the summary of the open option positions, and the loss counter
 * and profit lock the main loop keeps between polls.
 *
 * The clock, the broker and the market-data service are inputs. Floats are
 * exact reals; `round(x, 0)` is exact half-to-even rounding.
 */
module Strangle {
  import opened Wrappers
  import opened Text
  import opened Dates
  import opened Symbols

  // ---------------------------------------------------------------------
  // get_next_thursday
  // ---------------------------------------------------------------------

  /** The weekday number of Thursday (Monday is 0). */
  const Thursday: int := 3

  /** `days_ahead`: `3 - weekday`, a week more when that is not positive. */
  function DaysAhead(w: int): (n: int)
    requires 0 <= w < 7
    ensures 1 <= n <= 7
  {
    var ahead := Thursday - w;
    if ahead <= 0 then ahead + 7 else ahead
  }

  /** `get_next_thursday(start)`: `start + timedelta(days=days_ahead)`. */
  function NextThursday(start: Date): (r: Date)
    requires Valid(start)
    ensures Valid(r) && Ordinal(r) == Ordinal(start) + DaysAhead(Weekday(start))
  {
    AddDays(start, DaysAhead(Weekday(start)))
  }

  /** The weekday `k` days after `start`. */
  function WeekdayAfter(start: Date, k: int): int
    requires Valid(start)
  {
    WeekdayFrom(Ordinal(start), k)
  }

  /** The weekday `k` days after day number `o`. */
  function WeekdayFrom(o: int, k: int): int {
    (o + k + 6) % 7
  }

  /**
   * The result is the first Thursday strictly after `start`, one to seven days
   * on; a Thursday moves a whole week on.
   */
  lemma NextThursdayIsNext(start: Date)
    requires Valid(start)
    ensures var r := NextThursday(start);
      && Weekday(r) == Thursday
      && 1 <= DaysBetween(r, start) <= 7
      && (Weekday(start) == Thursday ==> DaysBetween(r, start) == 7)
      && forall k | 1 <= k < DaysBetween(r, start) :: WeekdayAfter(start, k) != Thursday
  {
    var o, n := Ordinal(start), Ordinal(NextThursday(start));
    WeekdayIs(start, o);
    WeekdayIs(NextThursday(start), n);
    ThursdayOrdinals(o, n);
  }

  /** A date's weekday read from its day number. */
  lemma WeekdayIs(d: Date, o: int)
    requires Valid(d) && o == Ordinal(d)
    ensures Weekday(d) == WeekdayFrom(o, 0)
  {
  }

  /** The claim above on day numbers alone: `o` is the start's, `n` the result's. */
  lemma ThursdayOrdinals(o: int, n: int)
    requires n == o + DaysAhead(WeekdayFrom(o, 0))
    ensures WeekdayFrom(n, 0) == Thursday && 1 <= n - o <= 7
    ensures WeekdayFrom(o, 0) == Thursday ==> n - o == 7
    ensures forall k | 1 <= k < n - o :: WeekdayFrom(o, k) != Thursday
  {
    var x := o + 6;
    ThursdayStep(x, n - o);
    assert WeekdayFrom(n, 0) == StepWeekday(x, n - o);
    forall k | 1 <= k < n - o ensures WeekdayFrom(o, k) != Thursday {
      assert WeekdayFrom(o, k) == StepWeekday(x, k);
    }
  }

  /** The weekday number reached `k` days after day number `x`. */
  function StepWeekday(x: int, k: int): int {
    (x + k) % 7
  }

  /** Moving `3 - w` days on (a week more when that is not positive) from weekday `w` lands on the next Thursday. */
  lemma ThursdayStep(x: int, ahead: int)
    requires ahead == DaysAhead(x % 7)
    ensures 1 <= ahead <= 7 && StepWeekday(x, ahead) == Thursday
    ensures x % 7 == Thursday ==> ahead == 7
    ensures forall k | 1 <= k < ahead :: StepWeekday(x, k) != Thursday
  {
    var q, r := x / 7, x % 7;
    if r < Thursday {
      ModSeven(x + ahead, q, Thursday);
      forall k | 1 <= k < ahead ensures StepWeekday(x, k) != Thursday {
        ModSeven(x + k, q, r + k);
      }
    } else {
      ModSeven(x + ahead, q + 1, Thursday);
      forall k | 1 <= k < ahead ensures StepWeekday(x, k) != Thursday {
        if r + k < 7 {
          ModSeven(x + k, q, r + k);
        } else {
          ModSeven(x + k, q + 1, r + k - 7);
        }
      }
    }
  }

  /** The remainder of `7 * q + r` by seven is `r` when `r` is a weekday number. */
  lemma ModSeven(y: int, q: int, r: int)
    requires y == 7 * q + r && 0 <= r < 7
    ensures y % 7 == r
  {
  }

  // ---------------------------------------------------------------------
  // generate_instrument_name
  // ---------------------------------------------------------------------

  /**
   * `generate_instrument_name(index, expiry, type, strike, option_type)`:
   * the expiry text is read with `%d-%b-%Y` (None when it does not parse);
   * a MONTHLY name (any case) carries the two-digit year and the capitalised
   * month; any other type carries the two-digit year, the month number
   * without padding and the two-digit day. The strike is written as
   * `int(strike)`.
   */
  function GenerateInstrumentName(index: string, expiryDate: string, expiryType: string,
                                  strikePrice: real, optionType: string): (r: Option<string>)
    ensures r.Some? <==> ParseDate(expiryDate).Some?
    ensures r.Some? ==> (|r.value| > |index| + |optionType|
      && r.value[..|index|] == index && r.value[|r.value| - |optionType|..] == optionType)
  {
    match ParseDate(expiryDate)
    case None => None
    case Some(d) =>
      var monthNum := d.month;
      var monthChar := Upper(MonthAbbrev(d.month));
      var year := Pad2(d.year % 100);
      var monthly := Upper(expiryType) == "MONTHLY";
      var day := if monthly then "" else Pad2(d.day);
      var month := if monthly then monthChar else IntToString(monthNum);
      var s := index + year + month + day + IntToString(Trunc(strikePrice)) + optionType;
      assert s[..|index|] == index;
      assert s[|s| - |optionType|..] == optionType;
      Some(s)
  }

  /** The monthly layout: index, two-digit year, capitalised month, strike, option type. */
  lemma MonthlyInstrumentName(index: string, d: Date, expiryType: string, strike: int, optionType: string)
    requires Valid(d) && 1000 <= d.year <= 9999 && Upper(expiryType) == "MONTHLY"
    ensures GenerateInstrumentName(index, FormatDate(d), expiryType, strike as real, optionType)
         == Some(index + Pad2(d.year % 100) + MonthName(d.month) + IntToString(strike) + optionType)
  {
    FormatDateRoundTrip(d);
    MonthAbbrevUpper(d.month);
    assert Trunc(strike as real) == strike;
    var head := index + Pad2(d.year % 100) + MonthName(d.month);
    assert head + "" == head;
  }

  /** The weekly layout: index, two-digit year, unpadded month number, two-digit day, strike, option type. */
  lemma WeeklyInstrumentName(index: string, d: Date, expiryType: string, strike: int, optionType: string)
    requires Valid(d) && 1000 <= d.year <= 9999 && Upper(expiryType) != "MONTHLY"
    ensures GenerateInstrumentName(index, FormatDate(d), expiryType, strike as real, optionType)
         == Some(index + Pad2(d.year % 100) + IntToString(d.month) + Pad2(d.day) + IntToString(strike) + optionType)
  {
    FormatDateRoundTrip(d);
    assert Trunc(strike as real) == strike;
  }

  /**
   * A MONTHLY name for an all-capitals index, a strike of any size and CE or
   * PE decodes with `split_symbol` to the same index, year, month, strike and
   * option type, with the expiry on the month's last expiry weekday.
   */
  lemma MonthlyNameRoundTrip(index: string, d: Date, expiryType: string, strike: nat, optionType: string)
    requires |index| > 0 && AllUpper(index) && (optionType == "CE" || optionType == "PE")
    requires Valid(d) && 2000 <= d.year <= 2099 && Upper(expiryType) == "MONTHLY"
    ensures var name := GenerateInstrumentName(index, FormatDate(d), expiryType, strike as real, optionType);
      && name.Some?
      && var r := SplitSymbol(name.value);
      && r.Parsed? && r.symbol.underlying == index && r.symbol.strike == strike
      && r.symbol.optionType == Some(optionType)
      && r.symbol.expiry.year == d.year && r.symbol.expiry.month == d.month
      && IsLastWeekdayOf(r.symbol.expiry, d.year, d.month, ExpiryWeekday(index))
  {
    MonthlyInstrumentName(index, d, expiryType, strike, optionType);
    MonthlyNameDecodes(index, d.year, d.month, strike, optionType);
  }

  lemma MonthlyNameDecodes(index: string, year: int, m: int, strike: nat, optionType: string)
    requires |index| > 0 && AllUpper(index) && (optionType == "CE" || optionType == "PE")
    requires 2000 <= year <= 2099 && 1 <= m <= 12
    ensures var r := SplitSymbol(index + Pad2(year % 100) + MonthName(m) + IntToString(strike) + optionType);
      && r.Parsed? && r.symbol.underlying == index && r.symbol.strike == strike
      && r.symbol.optionType == Some(optionType)
      && r.symbol.expiry.year == year && r.symbol.expiry.month == m
      && IsLastWeekdayOf(r.symbol.expiry, year, m, ExpiryWeekday(index))
  {
    assert 2000 + year % 100 == year;
    MonthlyLayout(index, year % 100, m, strike, optionType);
  }

  /**
   * Weekly names do not round-trip: the expiry 2 October 2025 is written
   * "NIFTY25100224900PE" (year, month, day), and `split_symbol` reads that
   * back as 25 October 2002 (day first, year last).
   */
  lemma WeeklyNameMisread()
    ensures ParseDate("02-Oct-2025") == Some(Date(2025, 10, 2))
    ensures GenerateInstrumentName("NIFTY", "02-Oct-2025", "weekly", 24900.0, "PE") == Some("NIFTY25100224900PE")
    ensures SplitSymbol("NIFTY25100224900PE") == Parsed(Symbol("NIFTY", Date(2002, 10, 25), 24900, Some("PE")))
    ensures Date(2002, 10, 25) != Date(2025, 10, 2)
  {
    WeeklyNameOfOctober2();
    WeeklyMisreadSplit();
  }

  lemma WeeklyMisreadSplit()
    ensures SplitSymbol("NIFTY25100224900PE") == Parsed(Symbol("NIFTY", Date(2002, 10, 25), 24900, Some("PE")))
  {
    var s := "NIFTY" + "25100224900" + "PE";
    assert s == "NIFTY25100224900PE";
    WeeklyMisreadFields();
    WeeklyIsDecodeWeekly("NIFTY", "25100224900", "PE");
    WeeklyMisreadDecode();
  }

  lemma WeeklyNameOfOctober2()
    ensures ParseDate("02-Oct-2025") == Some(Date(2025, 10, 2))
    ensures GenerateInstrumentName("NIFTY", "02-Oct-2025", "weekly", 24900.0, "PE") == Some("NIFTY25100224900PE")
  {
    var d := Date(2025, 10, 2);
    FormatOctober2();
    FormatDateRoundTrip(d);
    WeeklyUpper();
    WeeklyInstrumentName("NIFTY", d, "weekly", 24900, "PE");
    WeeklyOctober2Text();
  }

  lemma FormatOctober2()
    ensures FormatDate(Date(2025, 10, 2)) == "02-Oct-2025"
  {
    assert NatToString(2025) == "2025";
  }

  lemma WeeklyUpper()
    ensures Upper("weekly") == "WEEKLY"
  {
  }

  lemma WeeklyOctober2Text()
    ensures "NIFTY" + Pad2(2025 % 100) + IntToString(10) + Pad2(2) + IntToString(24900) + "PE" == "NIFTY25100224900PE"
  {
    October2Pieces();
    var s := "NIFTY" + "25" + "10" + "02" + "24900" + "PE";
    assert s == "NIFTY25100224900PE";
  }

  lemma October2Pieces()
    ensures Pad2(2025 % 100) == "25" && IntToString(10) == "10" && Pad2(2) == "02"
    ensures IntToString(24900) == "24900"
  {
    assert IntToString(10) == "10";
    assert IntToString(24900) == "24900";
  }

  lemma WeeklyMisreadFields()
    ensures PySlice("25100224900", 0, -5) == "251002" && PySlice("25100224900", -5, 11) == "24900"
    ensures PySlice("251002", -2, 6) == "02" && PySlice("251002", 2, -2) == "10" && PySlice("251002", 0, 2) == "25"
    ensures !HasThreeCapitals("25100224900")
  {
    var mid := "25100224900";
    forall i | 0 <= i && i + 3 <= |mid| ensures !IsUpper(mid[i]) { }
  }

  lemma WeeklyMisreadDecode()
    ensures DecodeWeekly("NIFTY", "25100224900", Some("PE")) == Parsed(Symbol("NIFTY", Date(2002, 10, 25), 24900, Some("PE")))
  {
    var sym := Symbol("NIFTY", Date(2002, 10, 25), 24900, Some("PE"));
    WeeklyMisreadFields();
    WeeklyMisreadNumerals();
    assert Valid(sym.expiry);
    WeeklyFromFields("NIFTY", "25100224900", Some("PE"), sym);
  }

  lemma WeeklyMisreadNumerals()
    ensures ParseInt("02") == Some(2) && ParseInt("10") == Some(10)
    ensures ParseInt("25") == Some(25) && ParseInt("24900") == Some(24900)
  {
    Pad2RoundTrip(2);
    assert Pad2(2) == "02";
    ReadNumeral(10, "10");
    ReadNumeral(25, "25");
    Numeral24900();
  }


  // ---------------------------------------------------------------------
  // get_total_profits
  // ---------------------------------------------------------------------

  /** One open option position as the broker wrapper reports it. */
  datatype OptionPosition = OptionPosition(
    symbol: string, indexName: string, optionType: string, gain: real, quantity: int, lastPrice: real)

  /** The tuple `get_total_profits` returns. */
  datatype ProfitSummary = ProfitSummary(
    totalProfit: real, lots: real, peSymbol: Option<string>, ceSymbol: Option<string>, pePrice: real, cePrice: real)

  function SumGains(ps: seq<OptionPosition>): real
    decreases |ps|
  {
    if ps == [] then 0.0 else SumGains(ps[..|ps| - 1]) + ps[|ps| - 1].gain
  }

  /** The last position of the given option type, in list order. */
  function LastOfType(ps: seq<OptionPosition>, kind: string): Option<OptionPosition>
    decreases |ps|
  {
    if ps == [] then None
    else if ps[|ps| - 1].optionType == kind then Some(ps[|ps| - 1])
    else LastOfType(ps[..|ps| - 1], kind)
  }

  /** The position found has the type and no later one has it; none is found only when none has it. */
  lemma {:induction false} LastOfTypeIsLast(ps: seq<OptionPosition>, kind: string)
    ensures var r := LastOfType(ps, kind);
      && (r.Some? ==> exists k | 0 <= k < |ps| :: ps[k] == r.value && ps[k].optionType == kind
                        && forall j | k < j < |ps| :: ps[j].optionType != kind)
      && (r.None? ==> forall k | 0 <= k < |ps| :: ps[k].optionType != kind)
    decreases |ps|
  {
    if LastOfType(ps, kind).Some? {
      LastOfTypeFound(ps, kind);
    } else {
      LastOfTypeAbsent(ps, kind);
    }
  }

  lemma {:induction false} LastOfTypeFound(ps: seq<OptionPosition>, kind: string)
    requires LastOfType(ps, kind).Some?
    ensures exists k | 0 <= k < |ps| ::
              ps[k] == LastOfType(ps, kind).value && ps[k].optionType == kind
              && forall j | k < j < |ps| :: ps[j].optionType != kind
    decreases |ps|
  {
    var n := |ps| - 1;
    if ps[n].optionType == kind {
      assert ps[n] == LastOfType(ps, kind).value;
    } else {
      var init := ps[..n];
      LastOfTypeFound(init, kind);
      var k :| 0 <= k < |init| && init[k] == LastOfType(init, kind).value && init[k].optionType == kind
        && forall j | k < j < |init| :: init[j].optionType != kind;
      assert ps[k] == init[k];
      forall j | k < j < |ps| ensures ps[j].optionType != kind {
        if j < n {
          assert ps[j] == init[j];
        }
      }
    }
  }

  lemma {:induction false} LastOfTypeAbsent(ps: seq<OptionPosition>, kind: string)
    requires LastOfType(ps, kind).None?
    ensures forall k | 0 <= k < |ps| :: ps[k].optionType != kind
    decreases |ps|
  {
    if ps != [] {
      var init := ps[..|ps| - 1];
      LastOfTypeAbsent(init, kind);
      forall k | 0 <= k < |ps| ensures ps[k].optionType != kind {
        if k < |ps| - 1 {
          assert ps[k] == init[k];
        }
      }
    }
  }

  /** One more position: it is the last of its type, and the last of any other type is unchanged. */
  lemma LastOfTypeStep(ps: seq<OptionPosition>, i: nat, kind: string)
    requires i < |ps|
    ensures LastOfType(ps[..i + 1], kind) == if ps[i].optionType == kind then Some(ps[i]) else LastOfType(ps[..i], kind)
  {
    assert ps[..i + 1][..i] == ps[..i];
  }

  /** The lot size dividing a position's quantity: NIFTY's for NIFTY, BANKNIFTY's for any other index. */
  function LotSize(p: OptionPosition, niftyQuantity: int, bankniftyQuantity: int): int {
    if p.indexName == "NIFTY" then niftyQuantity else bankniftyQuantity
  }

  /** `quantity / lot_size`: a quantity in lots. */
  function Lots(quantity: int, size: int): real
    requires size != 0
  {
    quantity as real / size as real
  }

  /**
   * `get_total_profits`: the sum of the gains, the lots of the LAST position,
   * and the symbol and price of the last PUT and the last CALL (None and 0
   * when there is none). It raises on an empty list (`lots` is never bound)
   * and when a lot size is zero.
   */
  method TotalProfits(ps: seq<OptionPosition>, niftyQuantity: int, bankniftyQuantity: int)
    returns (r: Outcome<ProfitSummary>)
    ensures r.Raised? <==> ps == [] || exists k | 0 <= k < |ps| :: LotSize(ps[k], niftyQuantity, bankniftyQuantity) == 0
    ensures r.Returned? ==>
      var last := ps[|ps| - 1];
      var pe, ce := LastOfType(ps, "PUT"), LastOfType(ps, "CALL");
      && r.value.totalProfit == SumGains(ps)
      && r.value.lots == Lots(last.quantity, LotSize(last, niftyQuantity, bankniftyQuantity))
      && r.value.peSymbol == (if pe.Some? then Some(pe.value.symbol) else None)
      && r.value.pePrice == (if pe.Some? then pe.value.lastPrice else 0.0)
      && r.value.ceSymbol == (if ce.Some? then Some(ce.value.symbol) else None)
      && r.value.cePrice == (if ce.Some? then ce.value.lastPrice else 0.0)
  {
    var totalProfit, pePrice, cePrice := 0.0, 0.0, 0.0;
    var peSymbol: Option<string>, ceSymbol: Option<string> := None, None;
    var lots := 0.0;
    var i := 0;
    while i < |ps|
      invariant 0 <= i <= |ps|
      invariant totalProfit == SumGains(ps[..i])
      invariant forall k | 0 <= k < i :: LotSize(ps[k], niftyQuantity, bankniftyQuantity) != 0
      invariant i > 0 ==> lots == Lots(ps[i - 1].quantity, LotSize(ps[i - 1], niftyQuantity, bankniftyQuantity))
      invariant var pe := LastOfType(ps[..i], "PUT");
        peSymbol == (if pe.Some? then Some(pe.value.symbol) else None)
        && pePrice == (if pe.Some? then pe.value.lastPrice else 0.0)
      invariant var ce := LastOfType(ps[..i], "CALL");
        ceSymbol == (if ce.Some? then Some(ce.value.symbol) else None)
        && cePrice == (if ce.Some? then ce.value.lastPrice else 0.0)
    {
      var p := ps[i];
      assert ps[..i + 1][..i] == ps[..i];
      LastOfTypeStep(ps, i, "PUT");
      LastOfTypeStep(ps, i, "CALL");
      totalProfit := totalProfit + p.gain;
      var size := if p.indexName == "NIFTY" then niftyQuantity else bankniftyQuantity;
      if size == 0 {
        // ZeroDivisionError
        return Raised;
      }
      lots := Lots(p.quantity, size);
      if p.optionType == "PUT" {
        peSymbol := Some(p.symbol);
        pePrice := p.lastPrice;
      } else if p.optionType == "CALL" {
        ceSymbol := Some(p.symbol);
        cePrice := p.lastPrice;
      }
      i := i + 1;
    }
    assert ps[..i] == ps;
    if i == 0 {
      // UnboundLocalError: `lots` is only bound inside the loop.
      return Raised;
    }
    r := Returned(ProfitSummary(totalProfit, lots, peSymbol, ceSymbol, pePrice, cePrice));
  }

  // ---------------------------------------------------------------------
  // The loss counter and the profit lock of the main loop
  // ---------------------------------------------------------------------

  /** `-1 * int(no_of_lots) * int(max_loss_per_lot)`: the loss allowed before the counter runs. */
  function MaxLossThreshold(lots: real, maxLossPerLot: int): (t: real)
    ensures lots >= 0.0 && maxLossPerLot >= 0 ==> t <= 0.0
    ensures t == -(Trunc(lots) * maxLossPerLot) as real
  {
    (-1 * Trunc(lots) * maxLossPerLot) as real
  }

  /** The poll's hit counter: reset while the profit stays above the threshold, one more otherwise. */
  function CountLoss(count: int, totalProfit: real, maxThreshold: real): (c: int)
    ensures totalProfit > maxThreshold ==> c == 0
    ensures totalProfit <= maxThreshold ==> c == count + 1
    ensures count >= 0 ==> (c == 0 <==> totalProfit > maxThreshold)
  {
    if totalProfit > maxThreshold then 0 else count + 1
  }

  /**
   * The profit lock, with `unit` = lots × max loss per lot: from two units of
   * profit up the threshold ratchets to `unit × round(profit/unit − 1)` when
   * that is higher; between one and two units it is set to break-even (0).
   * None stands for the `ZeroDivisionError` of a zero unit.
   */
  function LockStep(maxThreshold: real, totalProfit: real, unit: real): (r: Option<real>)
    ensures r.None? <==> unit == 0.0
    ensures unit > 0.0 && totalProfit >= 2.0 * unit ==> r.value >= maxThreshold
    ensures unit > 0.0 && totalProfit >= 2.0 * unit && r.value != maxThreshold ==>
      totalProfit - 1.5 * unit <= r.value <= totalProfit - 0.5 * unit
    ensures unit > 0.0 && unit < totalProfit < 2.0 * unit ==> r.value == 0.0
    ensures unit > 0.0 && totalProfit <= unit ==> r.value == maxThreshold
  {
    if unit == 0.0 then None
    else
      var ratio := totalProfit / unit;
      var locked := unit * RoundHalfEven(ratio - 1.0) as real;
      RatioAtLeastTwo(totalProfit, unit);
      LockedNearProfit(totalProfit, unit);
      if ratio >= 2.0 && maxThreshold < locked then Some(locked)
      else if unit < totalProfit < unit * 2.0 then Some(0.0)
      else Some(maxThreshold)
  }

  /** For a positive unit, a ratio of two or more is a profit of two units or more. */
  lemma RatioAtLeastTwo(totalProfit: real, unit: real)
    requires unit != 0.0
    ensures unit > 0.0 ==> (totalProfit / unit >= 2.0 <==> totalProfit >= 2.0 * unit)
  {
    if unit > 0.0 {
      assert (totalProfit / unit) * unit == totalProfit;
      if totalProfit / unit >= 2.0 {
        assert (totalProfit / unit - 2.0) * unit >= 0.0;
      } else {
        assert (2.0 - totalProfit / unit) * unit > 0.0;
      }
    }
  }

  /** The ratcheted lock lies between half a unit and one and a half units below the profit. */
  lemma LockedNearProfit(totalProfit: real, unit: real)
    requires unit != 0.0
    ensures var locked := unit * RoundHalfEven(totalProfit / unit - 1.0) as real;
      unit > 0.0 ==> totalProfit - 1.5 * unit <= locked <= totalProfit - 0.5 * unit
  {
    if unit > 0.0 {
      ScaledNear(totalProfit, unit, RoundHalfEven(totalProfit / unit - 1.0) as real);
    }
  }

  /** A multiple `n` of the unit within half a unit of `p / u − 1`, scaled back by `u`. */
  lemma ScaledNear(p: real, u: real, n: real)
    requires u > 0.0 && p / u - 1.5 <= n <= p / u - 0.5
    ensures p - 1.5 * u <= u * n <= p - 0.5 * u
  {
    var q := p / u;
    assert u * q == p;
    var below, above := n - (q - 1.5), (q - 0.5) - n;
    ProductNonNegative(u, below);
    ProductNonNegative(u, above);
    assert u * below == u * n - u * q + 1.5 * u;
    assert u * above == u * q - 0.5 * u - u * n;
  }

  lemma ProductNonNegative(a: real, b: real)
    requires a >= 0.0 && b >= 0.0
    ensures a * b >= 0.0
  {
  }

  /** A ratcheted lock stays below the profit that set it, so the same poll never counts as a loss. */
  lemma LockBelowProfit(maxThreshold: real, totalProfit: real, unit: real)
    requires unit > 0.0 && totalProfit >= 2.0 * unit
    ensures LockStep(maxThreshold, totalProfit, unit).value != maxThreshold ==>
      CountLoss(0, totalProfit, LockStep(maxThreshold, totalProfit, unit).value) == 0
  {
  }

  /** Ties are rounded to even: 3.5 units of profit lock 2 units, and so do 3.4 units. */
  lemma LockStepExamples()
    ensures LockStep(-1000.0, 3500.0, 1000.0) == Some(2000.0)
    ensures LockStep(-1000.0, 3400.0, 1000.0) == Some(2000.0)
    ensures LockStep(2000.0, 1500.0, 1000.0) == Some(0.0)
  {
    assert 3500.0 / 1000.0 - 1.0 == 2.5;
    assert RoundHalfEven(2.5) == 2;
    assert 3400.0 / 1000.0 - 1.0 == 2.4;
    assert RoundHalfEven(2.4) == 2;
  }

  /** `no_of_lots * max_loss_per_lot`: the unit the profit lock counts in. */
  function LossUnit(lots: real, maxLossPerLot: int): real {
    lots * maxLossPerLot as real
  }

  /**
   * The variables of the main loop that persist between polls: the lots
   * traded, the loss threshold and the hit counter.
   */
  class LossGuard {
    const maxLossPerLot: int
    const maxLossWaitCount: int
    /** True on Wednesdays and Thursdays, when the loss exit is suspended. */
    const volatile: bool
    var noOfLots: real
    var maxThreshold: real
    var hitCount: int

    constructor (noOfLots: int, maxLossPerLot: int, maxLossWaitCount: int, volatile: bool)
      ensures this.maxLossPerLot == maxLossPerLot && this.maxLossWaitCount == maxLossWaitCount
      ensures this.volatile == volatile
      ensures this.noOfLots == noOfLots as real && hitCount == 0
      ensures maxThreshold == -(noOfLots * maxLossPerLot) as real
    {
      this.maxLossPerLot := maxLossPerLot;
      this.maxLossWaitCount := maxLossWaitCount;
      this.volatile := volatile;
      this.noOfLots := noOfLots as real;
      maxThreshold := (-1 * noOfLots * maxLossPerLot) as real;
      hitCount := 0;
    }

    /**
     * One poll with open positions: adopt the lots the positions show
     * (recomputing the threshold when they changed), count the poll against
     * the threshold, then apply the profit lock. Returns whether the loss exit
     * was reached (counter past the wait count on a calm day); its close
     * orders are commented out in the source, so nothing is sent. `stay_on`
     * is always true at the lock, since it is only cleared before a
     * `continue`.
     */
    method Poll(totalProfit: real, optionsLots: real) returns (r: Outcome<bool>)
      modifies this
      ensures noOfLots == optionsLots
      ensures var t := if old(noOfLots) != optionsLots then MaxLossThreshold(optionsLots, maxLossPerLot) else old(maxThreshold);
        && hitCount == CountLoss(old(hitCount), totalProfit, t)
        && var lock := LockStep(t, totalProfit, LossUnit(optionsLots, maxLossPerLot));
        && (r.Raised? <==> lock.None?)
        && (lock.Some? ==> maxThreshold == lock.value)
        && (r.Raised? ==> maxThreshold == t)
        && (r.Returned? ==> (r.value <==> totalProfit <= t && hitCount > maxLossWaitCount && !volatile))
    {
      if noOfLots != optionsLots {
        noOfLots := optionsLots;
        maxThreshold := MaxLossThreshold(noOfLots, maxLossPerLot);
      }
      var exit := false;
      if totalProfit > maxThreshold {
        hitCount := 0;
      } else {
        hitCount := hitCount + 1;
        if hitCount > maxLossWaitCount && !volatile {
          // As written: the BUY orders closing the short legs are commented out.
          exit := true;
        }
      }
      var lock := LockStep(maxThreshold, totalProfit, LossUnit(noOfLots, maxLossPerLot));
      if lock.None? {
        // ZeroDivisionError in `total_profit / (no_of_lots * max_loss_per_lot)`.
        return Raised;
      }
      maxThreshold := lock.value;
      return Returned(exit);
    }
  }
}
