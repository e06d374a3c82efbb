/**
 * The ETF back-test of BackTesting/nifty_back_test.py: a portfolio that
 * starts with one lump sum, buys a fixed amount after every move of at least
 * one percent since the last action, and sells a fixed amount, oldest lots
 * first, whenever the cumulative gain passes a threshold that rises by twelve
 * points after every sale. Actions of one kind are at least thirty days
 * apart. Between actions the peak value and the largest drawdown are kept.
 *
 * The CSV rows become a sequence of (date, closing price) pairs; floats are
 * exact reals.
 */
module BackTest {
  import opened Wrappers
  import opened Dates

  const InitialInvestment: real := 1000000.0
  const InvestAmount: real := 100000.0
  const WithdrawAmount: real := 100000.0
  /** A fall (or, as written, a rise) of one percent since the last action triggers a purchase. */
  const ThresholdInvest: real := -1.0
  /** The gain in percent that triggers the first sale, and the step added after each sale. */
  const ThresholdWithdraw: real := 12.0
  const MinInvestGapDays: int := 30
  const MinWithdrawGapDays: int := 30

  // ---------------------------------------------------------------------
  // The FIFO lot ledger
  // ---------------------------------------------------------------------

  /** One purchase: `[units, price]`. */
  datatype Lot = Lot(units: real, price: real)

  /** The market value of `units` at `price`. */
  function Value(units: real, price: real): (v: real)
    ensures units > 0.0 && price > 0.0 ==> v > 0.0
    ensures units >= 0.0 && price > 0.0 ==> v >= 0.0
  {
    units * price
  }

  /** `u`: the units an amount of cash buys (or a sale of that amount needs) at `price`. */
  function UnitsFor(amount: real, price: real): (u: real)
    requires price != 0.0
    ensures Value(u, price) == amount
    ensures amount > 0.0 && price > 0.0 ==> u > 0.0
  {
    amount / price
  }

  /** The units held in a ledger, front to back. */
  function Total(lots: seq<Lot>): real
    decreases |lots|
  {
    if lots == [] then 0.0 else lots[0].units + Total(lots[1..])
  }

  /** Every lot holds a positive number of units. */
  predicate Positive(lots: seq<Lot>) {
    forall k | 0 <= k < |lots| :: lots[k].units > 0.0
  }

  lemma {:induction false} TotalPositive(lots: seq<Lot>)
    requires Positive(lots)
    ensures Total(lots) >= 0.0
    ensures lots != [] ==> Total(lots) >= lots[0].units > 0.0
    decreases |lots|
  {
    if lots != [] {
      TotalPositive(lots[1..]);
    }
  }

  /** Appending a lot at the back adds its units. */
  lemma {:induction false} TotalAppend(lots: seq<Lot>, lot: Lot)
    ensures Total(lots + [lot]) == Total(lots) + lot.units
    decreases |lots|
  {
    if lots == [] {
      assert [] + [lot] == [lot];
    } else {
      TotalAppend(lots[1..], lot);
      assert (lots + [lot])[1..] == lots[1..] + [lot];
    }
  }

  /**
   * The outcome of withdrawing from the front: the lots left, the units
   * taken, and how many whole lots were popped on the way.
   */
  datatype Taken = Taken(rest: seq<Lot>, consumed: real, popped: nat)

  /**
   * FIFO withdrawal of `request` units: whole lots are popped while they fit
   * in what is still requested; the first lot that does not fit gives up the
   * remainder and stays at the front.
   */
  function Take(lots: seq<Lot>, request: real): (r: Taken)
    ensures |r.rest| + r.popped == |lots|
    decreases |lots|
  {
    if request <= 0.0 || lots == [] then Taken(lots, 0.0, 0)
    else if lots[0].units <= request then
      var t := Take(lots[1..], request - lots[0].units);
      Taken(t.rest, t.consumed + lots[0].units, t.popped + 1)
    else Taken([Lot(lots[0].units - request, lots[0].price)] + lots[1..], request, 0)
  }

  function Min(a: real, b: real): real {
    if a <= b then a else b
  }

  /**
   * A withdrawal takes the smaller of the request and the holding, and the
   * ledger left behind holds the rest, still in positive lots.
   */
  lemma {:induction false} TakeConsumed(lots: seq<Lot>, request: real)
    requires Positive(lots) && request >= 0.0
    ensures var t := Take(lots, request);
      && t.consumed == Min(request, Total(lots))
      && Total(t.rest) == Total(lots) - t.consumed
      && Positive(t.rest)
    decreases |lots|
  {
    TotalPositive(lots);
    if request > 0.0 && lots != [] {
      if lots[0].units <= request {
        assert Positive(lots[1..]) by {
          forall k | 0 <= k < |lots| - 1 ensures lots[1..][k].units > 0.0 {
            assert lots[1..][k] == lots[k + 1];
          }
        }
        TakeConsumed(lots[1..], request - lots[0].units);
      } else {
        var rest := [Lot(lots[0].units - request, lots[0].price)] + lots[1..];
        assert rest[1..] == lots[1..];
        assert Positive(rest) by {
          forall k | 0 <= k < |rest| ensures rest[k].units > 0.0 {
            if k > 0 {
              assert rest[k] == lots[k];
            }
          }
        }
      }
    }
  }

  /**
   * Only the front of the ledger changes: the first `popped` lots are gone,
   * and either the rest is untouched, or the next lot keeps its price with
   * fewer (still positive) units and everything behind it is untouched.
   */
  lemma {:induction false} TakeShape(lots: seq<Lot>, request: real)
    requires Positive(lots)
    ensures var t := Take(lots, request);
      && t.popped <= |lots|
      && (t.rest == lots[t.popped..]
          || (t.popped < |lots| && |t.rest| == |lots| - t.popped
              && t.rest[1..] == lots[t.popped + 1..]
              && t.rest[0].price == lots[t.popped].price
              && 0.0 < t.rest[0].units < lots[t.popped].units))
    decreases |lots|
  {
    if request > 0.0 && lots != [] && lots[0].units <= request {
      assert Positive(lots[1..]) by {
        forall k | 0 <= k < |lots| - 1 ensures lots[1..][k].units > 0.0 {
          assert lots[1..][k] == lots[k + 1];
        }
      }
      TakeShape(lots[1..], request - lots[0].units);
      var t := Take(lots[1..], request - lots[0].units);
      assert lots[1..][t.popped..] == lots[t.popped + 1..];
      if t.popped < |lots| - 1 {
        assert lots[1..][t.popped] == lots[t.popped + 1];
        assert lots[1..][t.popped + 1..] == lots[t.popped + 2..];
      }
    } else if request > 0.0 && lots != [] {
      var rest := [Lot(lots[0].units - request, lots[0].price)] + lots[1..];
      assert rest[1..] == lots[1..];
    }
  }

  /**
   * A request smaller than the holding is met in full, so the loop's
   * remaining request reaches zero, and some units stay behind.
   */
  lemma TakeInFull(lots: seq<Lot>, request: real)
    requires Positive(lots) && 0.0 <= request < Total(lots)
    ensures Take(lots, request).consumed == request
    ensures Total(Take(lots, request).rest) > 0.0 && Take(lots, request).rest != []
  {
    TakeConsumed(lots, request);
  }

  /** Popping a front lot that fits leaves the rest of the request for the lots behind it. */
  lemma TakePop(lots: seq<Lot>, request: real)
    requires request > 0.0 && lots != [] && lots[0].units <= request
    ensures var t := Take(lots[1..], request - lots[0].units);
      Take(lots, request).rest == t.rest && Take(lots, request).consumed == t.consumed + lots[0].units
  {
  }

  /** A front lot larger than the request gives up the request and stays. */
  lemma TakeTrim(lots: seq<Lot>, request: real)
    requires request > 0.0 && lots != [] && lots[0].units > request
    ensures Take(lots, request).rest == [Lot(lots[0].units - request, lots[0].price)] + lots[1..]
    ensures Take(lots, request).consumed == request
    ensures Take([Lot(lots[0].units - request, lots[0].price)] + lots[1..], 0.0).consumed == 0.0
  {
  }

  /** The cash raised so far grows by the units taken times the price. */
  lemma WithdrawnStep(request: real, remaining: real, taken: real, price: real)
    ensures Value(request - remaining, price) + Value(taken, price) == Value(request - (remaining - taken), price)
  {
  }

  /**
   * The deque `lot_ledger` together with the running `units`, which always
   * equals the units in the lots.
   */
  class Ledger {
    var lots: seq<Lot>
    var units: real

    predicate Valid()
      reads this
    {
      units == Total(lots) && Positive(lots)
    }

    constructor ()
      ensures Valid() && lots == [] && units == 0.0
    {
      lots := [];
      units := 0.0;
    }

    /** `units += bought_units; lot_ledger.append([bought_units, price])`. */
    method Buy(bought: real, price: real)
      requires Valid() && bought > 0.0
      modifies this
      ensures Valid()
      ensures lots == old(lots) + [Lot(bought, price)] && units == old(units) + bought
    {
      TotalAppend(lots, Lot(bought, price));
      units := units + bought;
      lots := lots + [Lot(bought, price)];
    }

    /**
     * The FIFO withdrawal loop: pops every front lot that fits in what is
     * still requested and takes the remainder from the next one; returns the
     * cash raised at the current price.
     */
    method Withdraw(request: real, price: real) returns (withdrawn: real)
      requires Valid() && request >= 0.0
      modifies this
      ensures Valid()
      ensures var t := Take(old(lots), request);
        && lots == t.rest && units == old(units) - t.consumed && withdrawn == Value(t.consumed, price)
    {
      var remaining := request;
      withdrawn := 0.0;
      while remaining > 0.0 && |lots| > 0
        invariant Valid() && remaining >= 0.0
        invariant Take(old(lots), request).rest == Take(lots, remaining).rest
        invariant Take(old(lots), request).consumed == (request - remaining) + Take(lots, remaining).consumed
        invariant units == old(units) - (request - remaining)
        invariant withdrawn == Value(request - remaining, price)
        decreases |lots| + (if remaining > 0.0 then 1 else 0)
      {
        var left, gained := TakeFront(remaining, price);
        WithdrawnStep(request, remaining, remaining - left, price);
        withdrawn := withdrawn + gained;
        remaining := left;
      }
    }

    /** One pass of the withdrawal loop: pop the front lot if it fits, else trim it. */
    method TakeFront(remaining: real, price: real) returns (left: real, gained: real)
      requires Valid() && remaining > 0.0 && lots != []
      modifies this
      ensures Valid() && 0.0 <= left < remaining
      ensures Take(old(lots), remaining).rest == Take(lots, left).rest
      ensures Take(old(lots), remaining).consumed == (remaining - left) + Take(lots, left).consumed
      ensures units == old(units) - (remaining - left) && gained == Value(remaining - left, price)
      ensures |lots| + (if left > 0.0 then 1 else 0) < |old(lots)| + 1
    {
      var lot := lots[0];
      if lot.units <= remaining {
        TakePop(lots, remaining);
        gained := Value(lot.units, price);
        left := remaining - lot.units;
        PopFront();
      } else {
        TakeTrim(lots, remaining);
        gained := Value(remaining, price);
        TrimFront(remaining);
        left := 0.0;
      }
    }

    /** `units -= lot_units; lot_ledger.popleft()`. */
    method PopFront()
      requires Valid() && lots != []
      modifies this
      ensures Valid() && lots == old(lots)[1..] && units == old(units) - old(lots)[0].units
    {
      ghost var before := lots;
      units := units - lots[0].units;
      lots := lots[1..];
      assert Positive(lots) by {
        forall k | 0 <= k < |lots| ensures lots[k].units > 0.0 {
          assert lots[k] == before[k + 1];
        }
      }
    }

    /** `lot_ledger[0][0] -= amount; units -= amount` for less than the front lot holds. */
    method TrimFront(amount: real)
      requires Valid() && lots != [] && 0.0 < amount < lots[0].units
      modifies this
      ensures Valid() && units == old(units) - amount
      ensures lots == [Lot(old(lots)[0].units - amount, old(lots)[0].price)] + old(lots)[1..]
    {
      var tail := lots[1..];
      lots := [Lot(lots[0].units - amount, lots[0].price)] + tail;
      assert lots[1..] == tail;
      units := units - amount;
      assert Positive(lots) by {
        forall k | 0 <= k < |lots| ensures lots[k].units > 0.0 {
          if k > 0 {
            assert lots[k] == tail[k - 1];
          }
        }
      }
    }
  }

  // ---------------------------------------------------------------------
  // The gating of one row
  // ---------------------------------------------------------------------

  /** `change`: the move, in percent, of the market value since the last action. */
  function PercentChange(marketValue: real, lastActionValue: real): real
    requires lastActionValue != 0.0
  {
    (marketValue - lastActionValue) / lastActionValue * 100.0
  }

  /** `gain_percent`: the cumulative gain as a percentage of what was invested. */
  function GainPercent(marketValue: real, invested: real): real
    requires invested != 0.0
  {
    (marketValue - invested) / invested * 100.0
  }

  /** `change <= threshold_invest or change >= -threshold_invest`: a move of at least one percent either way. */
  predicate InvestSignal(change: real) {
    change <= ThresholdInvest || change >= -ThresholdInvest
  }

  /** No earlier action of the kind, or at least `gap` days since it. */
  predicate GapPassed(last: Option<Date>, date: Date, gap: int)
    requires Valid(date) && (last.Some? ==> Valid(last.value))
  {
    last.None? || DaysBetween(date, last.value) >= gap
  }

  /** The gain has reached the threshold and more units are held than the sale needs. */
  predicate WithdrawSignal(gainPercent: real, threshold: real, units: real, price: real)
    requires price != 0.0
  {
    gainPercent >= threshold && units > UnitsFor(WithdrawAmount, price)
  }

  /** `dd`: the fall from the peak as a fraction of the peak, zero without a positive peak. */
  function Drawdown(peak: real, marketValue: real): (dd: real)
    ensures peak > 0.0 && 0.0 <= marketValue <= peak ==> 0.0 <= dd <= 1.0
    ensures peak <= 0.0 ==> dd == 0.0
  {
    if peak > 0.0 then (peak - marketValue) / peak else 0.0
  }

  function Max(a: real, b: real): (m: real)
    ensures m >= a && m >= b && (m == a || m == b)
  {
    if a >= b then a else b
  }

  /** What one row did, with the cash it moved. */
  datatype Action = InitialInvest(amount: real) | Invest(amount: real) | Withdraw(amount: real) | Hold

  // ---------------------------------------------------------------------
  // The main loop's state
  // ---------------------------------------------------------------------

  /** The variables the main loop carries from row to row. */
  class Portfolio {
    const ledger: Ledger
    var cumulativeInvested: real
    var totalInvested: real
    var totalWithdrawal: real
    var lastActionValue: Option<real>
    var lastInvestDate: Option<Date>
    var lastWithdrawDate: Option<Date>
    var thresholdWithdraw: real
    var peakValue: real
    var drawdown: real
    var maxInvestment: real
    var minInvestment: real

    predicate Valid()
      reads this, ledger
    {
      && ledger.Valid()
      && peakValue >= 0.0 && drawdown >= 0.0
      && (lastInvestDate.Some? ==> Dates.Valid(lastInvestDate.value))
      && (lastWithdrawDate.Some? ==> Dates.Valid(lastWithdrawDate.value))
      && (lastActionValue.None? ==> ledger.lots == [] && cumulativeInvested == 0.0 && peakValue == 0.0)
      && (lastActionValue.Some? ==> cumulativeInvested > 0.0 && ledger.units > 0.0 && lastActionValue.value > 0.0)
    }

    /** The settings and initial values at the top of the script. */
    constructor ()
      ensures Valid() && fresh(ledger)
      ensures ledger.lots == [] && ledger.units == 0.0
      ensures cumulativeInvested == 0.0 && totalInvested == 0.0 && totalWithdrawal == 0.0
      ensures lastActionValue.None? && lastInvestDate.None? && lastWithdrawDate.None?
      ensures thresholdWithdraw == ThresholdWithdraw && peakValue == 0.0 && drawdown == 0.0
      ensures maxInvestment == 0.0 && minInvestment == InitialInvestment
    {
      ledger := new Ledger();
      cumulativeInvested, totalInvested, totalWithdrawal := 0.0, 0.0, 0.0;
      lastActionValue, lastInvestDate, lastWithdrawDate := None, None, None;
      thresholdWithdraw := ThresholdWithdraw;
      peakValue, drawdown := 0.0, 0.0;
      maxInvestment, minInvestment := 0.0, InitialInvestment;
    }

    /**
     * One row of the main loop: the first row invests the lump sum; any other
     * row invests on a one-percent move past the gap, else withdraws on a
     * gain past the threshold past the gap, else only tracks the drawdown.
     */
    method Step(date: Date, price: real) returns (action: Action)
      requires Valid() && Dates.Valid(date) && price > 0.0
      modifies this, ledger
      ensures Valid() && lastActionValue.Some?
      ensures peakValue >= old(peakValue) && drawdown >= old(drawdown)
      ensures action.InitialInvest? <==> old(lastActionValue).None?
      ensures action.InitialInvest? ==> (ledger.lots == [Lot(UnitsFor(InitialInvestment, price), price)]
        && action.amount == InitialInvestment && cumulativeInvested == InitialInvestment
        && lastActionValue == Some(Value(ledger.units, price)) && peakValue == Value(ledger.units, price)
        && lastInvestDate == Some(date) && lastWithdrawDate == old(lastWithdrawDate)
        && drawdown == old(drawdown) && thresholdWithdraw == old(thresholdWithdraw)
        && totalInvested == old(totalInvested) && totalWithdrawal == old(totalWithdrawal)
        && maxInvestment == old(maxInvestment) && minInvestment == old(minInvestment))
      ensures old(lastActionValue).Some? ==>
        var change := PercentChange(Value(old(ledger.units), price), old(lastActionValue).value);
        var gain := GainPercent(Value(old(ledger.units), price), old(cumulativeInvested));
        && (action.Invest? <==> InvestSignal(change) && GapPassed(old(lastInvestDate), date, MinInvestGapDays))
        && (action.Withdraw? <==> (!action.Invest?
              && WithdrawSignal(gain, old(thresholdWithdraw), old(ledger.units), price)
              && GapPassed(old(lastWithdrawDate), date, MinWithdrawGapDays)))
      ensures action.Invest? ==> (ledger.lots == old(ledger.lots) + [Lot(UnitsFor(InvestAmount, price), price)]
        && ledger.units == old(ledger.units) + UnitsFor(InvestAmount, price)
        && action.amount == InvestAmount && cumulativeInvested == old(cumulativeInvested) + InvestAmount
        && totalInvested == old(totalInvested) + InvestAmount
        && lastActionValue == Some(Value(ledger.units, price)) && peakValue == Max(old(peakValue), Value(ledger.units, price))
        && lastInvestDate == Some(date) && lastWithdrawDate == old(lastWithdrawDate)
        && drawdown == old(drawdown) && thresholdWithdraw == old(thresholdWithdraw)
        && totalWithdrawal == old(totalWithdrawal)
        && maxInvestment == old(maxInvestment) && minInvestment == old(minInvestment))
      ensures action.Withdraw? ==> (ledger.lots == Take(old(ledger.lots), UnitsFor(WithdrawAmount, price)).rest
        && ledger.units == old(ledger.units) - UnitsFor(WithdrawAmount, price)
        && action.amount == WithdrawAmount
        && thresholdWithdraw == old(thresholdWithdraw) + ThresholdWithdraw
        && totalWithdrawal == old(totalWithdrawal) + WithdrawAmount
        && lastActionValue == Some(Value(ledger.units, price)) && peakValue == Max(old(peakValue), Value(ledger.units, price))
        && lastWithdrawDate == Some(date) && lastInvestDate == old(lastInvestDate)
        && drawdown == old(drawdown) && cumulativeInvested == old(cumulativeInvested)
        && totalInvested == old(totalInvested)
        && maxInvestment == old(maxInvestment) && minInvestment == old(minInvestment))
      ensures action.Hold? ==>
        var marketValue := Value(old(ledger.units), price);
        && ledger.lots == old(ledger.lots) && ledger.units == old(ledger.units)
        && peakValue == Max(old(peakValue), marketValue)
        && drawdown == Max(old(drawdown), Drawdown(peakValue, marketValue))
        && maxInvestment == Max(old(maxInvestment), cumulativeInvested)
        && minInvestment == -Max(-old(minInvestment), -cumulativeInvested)
        && lastActionValue == old(lastActionValue) && thresholdWithdraw == old(thresholdWithdraw)
        && lastInvestDate == old(lastInvestDate) && lastWithdrawDate == old(lastWithdrawDate)
        && cumulativeInvested == old(cumulativeInvested)
        && totalInvested == old(totalInvested) && totalWithdrawal == old(totalWithdrawal)
    {
      if lastActionValue.None? {
        action := Begin(date, price);
        return;
      }
      var marketValue := Value(ledger.units, price);
      var change := PercentChange(marketValue, lastActionValue.value);
      var gainPercent := GainPercent(marketValue, cumulativeInvested);
      if InvestSignal(change) && GapPassed(lastInvestDate, date, MinInvestGapDays) {
        action := InvestRow(date, price);
        return;
      }
      if WithdrawSignal(gainPercent, thresholdWithdraw, ledger.units, price)
        && GapPassed(lastWithdrawDate, date, MinWithdrawGapDays)
      {
        action := WithdrawRow(date, price);
        return;
      }
      Track(marketValue);
      action := Hold;
    }

    /** The first row: buy with the lump sum; the peak starts at that value. */
    method Begin(date: Date, price: real) returns (action: Action)
      requires Valid() && Dates.Valid(date) && price > 0.0 && lastActionValue.None?
      modifies this, ledger
      ensures Valid() && action == InitialInvest(InitialInvestment)
      ensures ledger.lots == [Lot(UnitsFor(InitialInvestment, price), price)]
      ensures cumulativeInvested == InitialInvestment && lastInvestDate == Some(date)
      ensures lastActionValue == Some(Value(ledger.units, price)) && peakValue == Value(ledger.units, price)
      ensures peakValue >= old(peakValue)
      ensures drawdown == old(drawdown) && thresholdWithdraw == old(thresholdWithdraw)
      ensures lastWithdrawDate == old(lastWithdrawDate)
      ensures totalInvested == old(totalInvested) && totalWithdrawal == old(totalWithdrawal)
      ensures maxInvestment == old(maxInvestment) && minInvestment == old(minInvestment)
    {
      ledger.Buy(UnitsFor(InitialInvestment, price), price);
      assert ledger.lots == [Lot(UnitsFor(InitialInvestment, price), price)];
      var marketValue := Value(ledger.units, price);
      cumulativeInvested := cumulativeInvested + InitialInvestment;
      lastActionValue := Some(marketValue);
      lastInvestDate := Some(date);
      peakValue := marketValue;
      action := InitialInvest(InitialInvestment);
      assert lastActionValue == Some(marketValue) && marketValue == Value(ledger.units, price);
    }

    /** A purchase of `invest_amount` at today's price. */
    method InvestRow(date: Date, price: real) returns (action: Action)
      requires Valid() && Dates.Valid(date) && price > 0.0 && lastActionValue.Some?
      modifies this, ledger
      ensures Valid() && action == Invest(InvestAmount)
      ensures ledger.lots == old(ledger.lots) + [Lot(UnitsFor(InvestAmount, price), price)]
      ensures ledger.units == old(ledger.units) + UnitsFor(InvestAmount, price)
      ensures cumulativeInvested == old(cumulativeInvested) + InvestAmount
      ensures totalInvested == old(totalInvested) + InvestAmount
      ensures lastActionValue == Some(Value(ledger.units, price)) && lastInvestDate == Some(date)
      ensures peakValue == Max(old(peakValue), Value(ledger.units, price))
      ensures drawdown == old(drawdown) && thresholdWithdraw == old(thresholdWithdraw)
      ensures lastWithdrawDate == old(lastWithdrawDate) && totalWithdrawal == old(totalWithdrawal)
      ensures maxInvestment == old(maxInvestment) && minInvestment == old(minInvestment)
    {
      ledger.Buy(UnitsFor(InvestAmount, price), price);
      var marketValue := Value(ledger.units, price);
      cumulativeInvested := cumulativeInvested + InvestAmount;
      totalInvested := totalInvested + InvestAmount;
      lastActionValue := Some(marketValue);
      lastInvestDate := Some(date);
      peakValue := Max(peakValue, marketValue);
      action := Invest(InvestAmount);
      assert lastActionValue == Some(marketValue) && marketValue == Value(ledger.units, price);
    }

    /** A sale of `withdraw_amount` worth of units, oldest lots first; the threshold moves up a step. */
    method WithdrawRow(date: Date, price: real) returns (action: Action)
      requires Valid() && Dates.Valid(date) && price > 0.0 && lastActionValue.Some?
      requires ledger.units > UnitsFor(WithdrawAmount, price)
      modifies this, ledger
      ensures Valid() && action == Withdraw(WithdrawAmount)
      ensures ledger.lots == Take(old(ledger.lots), UnitsFor(WithdrawAmount, price)).rest
      ensures ledger.units == old(ledger.units) - UnitsFor(WithdrawAmount, price)
      ensures thresholdWithdraw == old(thresholdWithdraw) + ThresholdWithdraw
      ensures totalWithdrawal == old(totalWithdrawal) + WithdrawAmount
      ensures lastActionValue == Some(Value(ledger.units, price)) && lastWithdrawDate == Some(date)
      ensures peakValue == Max(old(peakValue), Value(ledger.units, price))
      ensures drawdown == old(drawdown) && lastInvestDate == old(lastInvestDate)
      ensures cumulativeInvested == old(cumulativeInvested) && totalInvested == old(totalInvested)
      ensures maxInvestment == old(maxInvestment) && minInvestment == old(minInvestment)
    {
      thresholdWithdraw := thresholdWithdraw + ThresholdWithdraw;
      var request := UnitsFor(WithdrawAmount, price);
      TakeInFull(ledger.lots, request);
      var withdrawn := ledger.Withdraw(request, price);
      assert withdrawn == WithdrawAmount;
      var marketValue := Value(ledger.units, price);
      totalWithdrawal := totalWithdrawal + withdrawn;
      lastActionValue := Some(marketValue);
      lastWithdrawDate := Some(date);
      peakValue := Max(peakValue, marketValue);
      action := Withdraw(withdrawn);
      assert lastActionValue == Some(marketValue) && marketValue == Value(ledger.units, price);
    }

    /** A row without an action: the investment range, the peak and the largest drawdown. */
    method Track(marketValue: real)
      requires Valid() && lastActionValue.Some? && marketValue >= 0.0
      modifies this
      ensures Valid()
      ensures maxInvestment == Max(old(maxInvestment), cumulativeInvested)
      ensures minInvestment == -Max(-old(minInvestment), -cumulativeInvested)
      ensures peakValue == Max(old(peakValue), marketValue)
      ensures drawdown == Max(old(drawdown), Drawdown(peakValue, marketValue))
      ensures 0.0 <= Drawdown(peakValue, marketValue) <= 1.0 || peakValue == 0.0
      ensures lastActionValue == old(lastActionValue) && lastInvestDate == old(lastInvestDate)
      ensures lastWithdrawDate == old(lastWithdrawDate) && thresholdWithdraw == old(thresholdWithdraw)
      ensures cumulativeInvested == old(cumulativeInvested)
      ensures totalInvested == old(totalInvested) && totalWithdrawal == old(totalWithdrawal)
    {
      maxInvestment := Max(maxInvestment, cumulativeInvested);
      minInvestment := if minInvestment <= cumulativeInvested then minInvestment else cumulativeInvested;
      peakValue := Max(peakValue, marketValue);
      var dd := Drawdown(peakValue, marketValue);
      drawdown := Max(drawdown, dd);
    }

    /**
     * The main loop over the rows in date order: only the first row of a
     * fresh portfolio invests the lump sum, and the peak and the drawdown
     * never fall.
     */
    method Replay(rows: seq<(Date, real)>) returns (actions: seq<Action>)
      requires Valid()
      requires forall k | 0 <= k < |rows| :: Dates.Valid(rows[k].0) && rows[k].1 > 0.0
      modifies this, ledger
      ensures Valid() && |actions| == |rows|
      ensures peakValue >= old(peakValue) && drawdown >= old(drawdown)
      ensures forall k | 0 <= k < |actions| :: actions[k].InitialInvest? <==> k == 0 && old(lastActionValue).None?
    {
      actions := [];
      var i := 0;
      while i < |rows|
        invariant 0 <= i <= |rows| && |actions| == i
        invariant Valid()
        invariant peakValue >= old(peakValue) && drawdown >= old(drawdown)
        invariant i > 0 ==> lastActionValue.Some?
        invariant i == 0 ==> lastActionValue == old(lastActionValue)
        invariant forall k | 0 <= k < i :: actions[k].InitialInvest? <==> k == 0 && old(lastActionValue).None?
      {
        var action := Step(rows[i].0, rows[i].1);
        actions := actions + [action];
        i := i + 1;
      }
    }
  }
}
