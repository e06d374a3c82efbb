/**
 * The trading-symbol splitter of the broker wrapper
 * (TradingBroker/kite_api_bot.py, `__split_strike`): it cuts a symbol such as
 * `BANKNIFTY2461949800PE` into the index, the expiry field, the five-digit
 * strike and the option type, reading the expiry as five characters
 * (`24619`, `24DEC`) unless the two characters after the year look like a
 * month number, when it takes six.
 */
module Kite {
  import opened Wrappers
  import opened Text

  /** The four text fields `__split_strike` returns. */
  datatype StrikeParts = StrikeParts(indexName: string, expiry: string, strikePrice: string, optionType: string)

  /** `str.isnumeric` on the ASCII digits: non-empty and digits only. */
  predicate IsNumeric(s: string) {
    |s| > 0 && AllDigits(s)
  }

  /** The two characters after the year read as a month number (1 to 12, or 00). */
  predicate MonthLike(m: string) {
    IsNumeric(m) && DigitsValue(m) <= 12
  }

  /** Two characters are month-like exactly when they spell 00 to 09, 10, 11 or 12. */
  lemma MonthLikeTwoDigits(m: string)
    requires |m| == 2
    ensures MonthLike(m) <==> (m[0] == '0' && IsDigit(m[1])) || m == "10" || m == "11" || m == "12"
  {
    if AllDigits(m) {
      assert m[..1][..0] == [] && m[..1][0] == m[0];
      assert DigitsValue(m[..1]) == DigitValue(m[0]);
      assert DigitsValue(m) == DigitValue(m[0]) * 10 + DigitValue(m[1]);
    }
  }

  /** The index names the splitter knows, longest first as it tests them. */
  function Prefix(s: string): (p: Option<string>)
    ensures p.Some? ==> (p.value == "BANKNIFTY" || p.value == "NIFTY") && PySlice(s, 0, |p.value|) == p.value
    ensures p.None? <==> PySlice(s, 0, 9) != "BANKNIFTY" && PySlice(s, 0, 5) != "NIFTY"
  {
    if PySlice(s, 0, 9) == "BANKNIFTY" then Some("BANKNIFTY")
    else if PySlice(s, 0, 5) == "NIFTY" then Some("NIFTY")
    else None
  }

  /**
   * The expiry field after a prefix of length `p`, as written: six characters
   * when `s[p+2:p+4]` is numeric and at most 12, five otherwise.
   */
  function ExpiryAsWritten(s: string, p: nat): (e: string)
    ensures MonthLike(PySlice(s, p + 2, p + 4)) ==> e == PySlice(s, p, p + 6)
    ensures !MonthLike(PySlice(s, p + 2, p + 4)) ==> e == PySlice(s, p, p + 5)
  {
    if MonthLike(PySlice(s, p + 2, p + 4)) then PySlice(s, p, p + 6) else PySlice(s, p, p + 5)
  }

  /**
   * `__split_strike` as written. Any prefix other than BANKNIFTY or NIFTY
   * leaves `index_name` unbound, so the return raises `UnboundLocalError`.
   */
  function SplitStrikeAsWritten(s: string): (r: Outcome<StrikeParts>)
    ensures r.Raised? <==> Prefix(s).None?
    ensures r.Returned? ==> (r.value.indexName == Prefix(s).value
      && r.value.expiry == ExpiryAsWritten(s, |Prefix(s).value|)
      && r.value.strikePrice == PySlice(s, -7, -2) && r.value.optionType == PySlice(s, -2, |s|))
    ensures r.Returned? && |s| >= 7 ==> r.value.optionType == s[|s| - 2..] && r.value.strikePrice == s[|s| - 7..|s| - 2]
  {
    match Prefix(s)
    case None => Raised
    case Some(p) => Returned(StrikeParts(p, ExpiryAsWritten(s, |p|), PySlice(s, -7, -2), PySlice(s, -2, |s|)))
  }

  /**
   * The splitter as its strike and option-type slices mean it: the expiry is
   * everything between the index name and the last seven characters.
   */
  function SplitStrike(s: string): (r: Outcome<StrikeParts>)
    ensures r.Raised? <==> Prefix(s).None?
    ensures r.Returned? ==> (r.value.indexName == Prefix(s).value
      && r.value.expiry == PySlice(s, |Prefix(s).value|, -7)
      && r.value.strikePrice == PySlice(s, -7, -2) && r.value.optionType == PySlice(s, -2, |s|))
  {
    match Prefix(s)
    case None => Raised
    case Some(p) => Returned(StrikeParts(p, PySlice(s, |p|, -7), PySlice(s, -7, -2), PySlice(s, -2, |s|)))
  }

  /**
   * Splitting a symbol assembled from an index name, any expiry field, a
   * five-character strike and a two-character option type gives back the
   * four parts.
   */
  lemma SplitStrikeRoundTrip(index: string, expiry: string, strike: string, optionType: string)
    requires index == "BANKNIFTY" || index == "NIFTY"
    requires |strike| == 5 && |optionType| == 2
    ensures SplitStrike(index + expiry + strike + optionType) == Returned(StrikeParts(index, expiry, strike, optionType))
  {
    var s := index + expiry + strike + optionType;
    var n := |s|;
    assert s[..|index|] == index;
    assert s[|index|..n - 7] == expiry;
    assert s[n - 7..n - 2] == strike;
    assert s[n - 2..] == optionType;
    if index == "NIFTY" {
      assert s[..5] == "NIFTY";
      assert s[0] == 'N';
      if n >= 9 {
        assert s[..9][0] == 'N';
      }
    }
    assert Prefix(s) == Some(index);
    assert PySlice(s, |index|, -7) == expiry;
    assert PySlice(s, -7, -2) == strike;
    assert PySlice(s, -2, n) == optionType;
  }

  /**
   * The as-written splitter gets the expiry right exactly when the field's
   * length agrees with the month test: five characters whose third and
   * fourth are not a month number, or six whose third and fourth are.
   */
  lemma AsWrittenAgrees(index: string, expiry: string, strike: string, optionType: string)
    requires index == "BANKNIFTY" || index == "NIFTY"
    requires |strike| == 5 && |optionType| == 2 && (|expiry| == 5 || |expiry| == 6)
    ensures SplitStrikeAsWritten(index + expiry + strike + optionType) == SplitStrike(index + expiry + strike + optionType)
        <==> (|expiry| == 6 <==> MonthLike(expiry[2..4]))
  {
    var s := index + expiry + strike + optionType;
    var p := |index|;
    assert s == index + expiry + (strike + optionType);
    ExpiryWindow(index, expiry, strike + optionType);
    var w := ExpiryAsWritten(s, p);
    AsWrittenParts(index, expiry, strike, optionType);
    if MonthLike(expiry[2..4]) {
      if |expiry| == 5 {
        assert |w| == 6;
      }
    } else {
      if |expiry| == 6 {
        assert |w| == 5;
      } else {
        assert expiry[..5] == expiry;
      }
    }
  }

  /** Both splitters agree on every field of an assembled symbol except, perhaps, the expiry. */
  lemma AsWrittenParts(index: string, expiry: string, strike: string, optionType: string)
    requires index == "BANKNIFTY" || index == "NIFTY"
    requires |strike| == 5 && |optionType| == 2
    ensures var s := index + expiry + strike + optionType;
      SplitStrikeAsWritten(s) == Returned(StrikeParts(index, ExpiryAsWritten(s, |index|), strike, optionType))
      && SplitStrike(s) == Returned(StrikeParts(index, expiry, strike, optionType))
  {
    SplitStrikeRoundTrip(index, expiry, strike, optionType);
  }

  /** The windows the month test and the two expiry lengths read, for an expiry of five or six characters. */
  lemma ExpiryWindow(head: string, expiry: string, tail: string)
    requires (|expiry| == 5 || |expiry| == 6) && |tail| >= 1
    ensures PySlice(head + expiry + tail, |head| + 2, |head| + 4) == expiry[2..4]
    ensures PySlice(head + expiry + tail, |head|, |head| + 5) == expiry[..5]
    ensures PySlice(head + expiry + tail, |head|, |head| + 6) == if |expiry| == 6 then expiry else expiry + [tail[0]]
  {
    var s := head + expiry + tail;
    var p := |head|;
    assert s[p..p + |expiry|] == expiry;
    assert s[p + 2..p + 4] == expiry[2..4];
    assert s[p..p + 5] == expiry[..5];
    if |expiry| == 5 {
      assert s[p..p + 6] == expiry + [tail[0]];
    }
  }

  /** A five-character expiry without a month number in its middle is split correctly as written. */
  lemma FiveCharacterExpiry(index: string, expiry: string, strike: string, optionType: string)
    requires index == "BANKNIFTY" || index == "NIFTY"
    requires |strike| == 5 && |optionType| == 2 && |expiry| == 5 && !MonthLike(expiry[2..4])
    ensures SplitStrikeAsWritten(index + expiry + strike + optionType) == Returned(StrikeParts(index, expiry, strike, optionType))
  {
    AsWrittenAgrees(index, expiry, strike, optionType);
    SplitStrikeRoundTrip(index, expiry, strike, optionType);
  }

  /** The example of the source's own comment: a weekly BANKNIFTY contract. */
  lemma WeeklyExample()
    ensures SplitStrikeAsWritten("BANKNIFTY2461949800PE") == Returned(StrikeParts("BANKNIFTY", "24619", "49800", "PE"))
  {
    var s := "BANKNIFTY" + "24619" + "49800" + "PE";
    assert s == "BANKNIFTY2461949800PE";
    NotMonthLike61();
    FiveCharacterExpiry("BANKNIFTY", "24619", "49800", "PE");
  }

  lemma NotMonthLike61()
    ensures !MonthLike("24619"[2..4])
  {
    assert "24619"[2..4] == "61";
    assert "61"[..1] == "6";
  }

  /** A monthly NIFTY contract: the month is three letters, so the expiry is five characters. */
  lemma MonthlyExample()
    ensures SplitStrikeAsWritten("NIFTY24DEC24900PE") == Returned(StrikeParts("NIFTY", "24DEC", "24900", "PE"))
  {
    var s := "NIFTY" + "24DEC" + "24900" + "PE";
    assert s == "NIFTY24DEC24900PE";
    NotMonthLikeDE();
    FiveCharacterExpiry("NIFTY", "24DEC", "24900", "PE");
  }

  lemma NotMonthLikeDE()
    ensures !MonthLike("24DEC"[2..4])
  {
    assert "24DEC"[2..4][0] == 'D';
  }

  /**
   * A five-character expiry with a month number in its middle is read as
   * six characters: the as-written splitter appends the strike's first digit.
   */
  lemma SwallowedStrikeDigit(index: string, expiry: string, strike: string, optionType: string)
    requires index == "BANKNIFTY" || index == "NIFTY"
    requires |strike| == 5 && |optionType| == 2 && |expiry| == 5 && MonthLike(expiry[2..4])
    ensures SplitStrikeAsWritten(index + expiry + strike + optionType)
      == Returned(StrikeParts(index, expiry + [strike[0]], strike, optionType))
  {
    var s := index + expiry + strike + optionType;
    assert s == index + expiry + (strike + optionType);
    ExpiryWindow(index, expiry, strike + optionType);
    AsWrittenParts(index, expiry, strike, optionType);
  }

  lemma MonthLike12()
    ensures MonthLike("24125"[2..4])
  {
    assert "24125"[2..4] == "12";
    assert DigitsValue("12") == 12 by { assert "12"[..1] == "1"; }
  }

  /**
   * A January weekly symbol (year, one-digit month, day: `24125` for 25
   * January 2024) has `12` where the month test looks, so the as-written
   * splitter takes six characters and swallows the strike's first digit.
   */
  lemma JanuaryWeeklyMisread()
    ensures SplitStrikeAsWritten("BANKNIFTY2412548000CE") == Returned(StrikeParts("BANKNIFTY", "241254", "48000", "CE"))
    ensures SplitStrike("BANKNIFTY2412548000CE") == Returned(StrikeParts("BANKNIFTY", "24125", "48000", "CE"))
  {
    var s := "BANKNIFTY2412548000CE";
    assert "BANKNIFTY" + "24125" + "48000" + "CE" == s;
    MonthLike12();
    SwallowedStrikeDigit("BANKNIFTY", "24125", "48000", "CE");
    SplitStrikeRoundTrip("BANKNIFTY", "24125", "48000", "CE");
    assert "24125" + ["48000"[0]] == "241254";
  }
}
