# Options back-test and monitor: a verified model

This project models the decision logic of an Indian index-options trading
toolkit. The toolkit has four parts:

- **Position monitor** (`Monitor/options.py`). Each cycle, every watched
  account reloads its broker positions into the four legs of an iron condor
  (long put, short put, short call, long call). It computes the premium
  totals and the P&L, evaluates a stop-loss factor from days-to-expiry and
  the VIX, and trails a profit lock. It then rolls one short leg 50 points
  when its premium has decayed to 55% of the other side's. A supervisor
  reconciles the per-account objects against a roster.
- **Trading-symbol codecs**. `split_symbol` decodes monthly (`NIFTY24DEC24900PE`)
  and weekly (`NIFTY2592324900PE`) symbols. `generate_instrument_name`
  encodes them, and the broker wrapper's `__split_strike` cuts them into text
  fields.
- **Short-strangle loop** (`Strategies/my_strangle.py`). It covers the next
  weekly expiry, the summary of open positions, the loss counter and the
  profit lock that ratchets between polls.
- **ETF back-test** (`BackTesting/nifty_back_test.py`). A first lump sum is
  followed by fixed purchases on 1% moves and fixed FIFO sales when the gain
  passes a rising threshold. It keeps the peak value and the largest drawdown.

Modules, one per file:

| file | module | models |
|---|---|---|
| wrappers.dfy | `Wrappers` | `Option` (None / failed reply) and `Outcome` (raised / returned) |
| text.dfy | `Text` | `int(str)`, `str(int)`, `%02d`, Python slicing, ASCII `upper`, `str.replace`, `int(float)`, `round(x, 0)` |
| dates.dfy | `Dates` | proleptic Gregorian dates with Python's ordinal and weekday, `last_weekday_of_month`, `%d-%b-%Y` |
| symbols.dfy | `Symbols` | `split_symbol`, including the backtracking of its regular expression |
| risk.dfy | `Risk` | the stop-loss factor ladders, the nearing-strike test, the trailing step, the roll rule |
| monitor.dfy | `Monitor` | the class `HandleOptions`: `process_positions`, `get_pnl`, `check_stop_loss`, `trail_profit`, `adjustments`, `place_order` as order records, `run` |
| supervisor.dfy | `Roster` | the roster reconciliation of `handle_objs` |
| strangle.dfy | `Strangle` | `get_next_thursday`, `generate_instrument_name`, `get_total_profits`, the loss guard |
| kite.dfy | `Kite` | `__split_strike` |
| backtest.dfy | `BackTest` | the FIFO lot ledger, the invest/withdraw gating, the peak and drawdown |

Modelling choices:

**External inputs.**
- Replies of the local trading API are inputs:
  - the position reply is an `Option`;
  - the option-chain and price queries are functions returning `Option`;
  - today's date and the roster are parameters.
- The back-test's CSV rows are a sequence of (date, close) pairs.

**Numbers.**
- Python floats are exact reals.
- Integers are unbounded, as in Python.
- `int(x)` on a float truncates toward zero.
- `round(x, 0)` rounds half to even.

**Exceptions.** A Python exception is an explicit `Raised` outcome. `run_user`
swallows exceptions, so the state reached before the raise is kept.

**Reproduced as written.**
- `check_stop_loss` and `trail_profit` always return False, because their
  close orders are commented out.
- The stop-loss DTE is taken from the long-call leg.
- `quantity` is a running minimum from 1000000 that `process_positions` never
  resets.
- The leg fields are not reset between cycles.
- A weekly symbol is read day-first and year-last (see `Strangle.WeeklyNameMisread`).
- An empty or missing roster leaves the account objects untouched.
- The put roll sells the put 50 points higher, towards the spot
  (`Monitor/options.py:310`); the call roll sells the call 50 points lower
  (`Monitor/options.py:300`).
- As written, each roll raises `TypeError` right after its BUY, so the SELL is
  never sent (`Monitor.AdjustmentsAsWritten`, first row of "## Findings").
  `Monitor.HandleOptions.Run` follows the corrected roll
  (`Monitor.Adjustments`) and sends both orders.

## Model

| member | source | states |
|---|---|---|
| Dates.LastWeekdayOfMonth | Monitor/options.py:13-18 | the backward loop from the month's last day returns a date of that month with the requested weekday, and no later day of the month has that weekday |
| Dates.LastWeekdayDay | Monitor/options.py:15-17 | the day found lies in the month's last seven days, has the weekday and is the last such day |
| Dates.LastWeekdayDayIsLast | Monitor/options.py:16-17 | every day after the one found has a different weekday |
| Dates.LastWeekdayUnique | Monitor/options.py:13-18 | two dates that are both the last given weekday of the same month are the same date |
| Dates.AddDays | Strategies/my_strangle.py:35 | adding `n` days gives a valid date `n` ordinals later |
| Dates.NextDay | Strategies/my_strangle.py:35 | the next day is valid and one ordinal later, across month and year ends |
| Dates.YearLength | Monitor/options.py:15 | a year has 366 days when leap and 365 otherwise |
| Dates.MonthFromAbbrevInverse | Monitor/options.py:31 | `strptime(..., "%b")` reads back both `Jan` and `JAN` as the month number |
| Dates.FormatDateRoundTrip | Strategies/my_strangle.py:63 | text written as `%d-%b-%Y` parses back to the same date (four-digit years) |
| Dates.FormatDate | Monitor/options.py:132 | `%d-%b-%Y`: a two-character day, a dash, the English month abbreviation, a dash and then the year, seven characters plus the year's digits |
| Dates.ParseDate | Strategies/my_strangle.py:63 | `strptime(…, '%d-%b-%Y')`: every date it accepts is a real calendar date, read from ten or eleven characters; anything else raises |
| Symbols.ExpiryWeekday | Monitor/options.py:6-11 | SENSEX expires on Thursday (3), NIFTY, BANKNIFTY and FINNIFTY on Tuesday (1), and any other underlying falls back to Tuesday |
| Symbols.SplitSymbol | Monitor/options.py:20-41 | `None` exactly when the regular expression fails; every decoded expiry is a valid calendar date |
| Symbols.NoMatchIff | Monitor/options.py:22-24 | a symbol without a newline fails to match exactly when it does not start with a capital or is shorter than two characters |
| Symbols.MatchWellFormed | Monitor/options.py:22-25 | a capital run, a middle starting with a non-capital, and CE or PE match as the three groups `underlying`, `middle`, `opt_type` |
| Symbols.MonthlyIsDecodeMonthly | Monitor/options.py:26-32 | a middle containing three capitals takes the monthly branch |
| Symbols.WeeklyIsDecodeWeekly | Monitor/options.py:33-40 | any other middle takes the weekly branch |
| Symbols.DecodeMonthlyFields | Monitor/options.py:27-32 | the monthly branch yields year `2000 + int(middle[:2])`, the month named by `middle[2:5]`, strike `int(middle[5:])` and the month's last expiry weekday |
| Symbols.DecodeWeeklyFields | Monitor/options.py:35-40 | the weekly branch reads the day from the first two digits, the month from the digits between, the year from the last two, and the strike from the last five characters |
| Symbols.MonthlyExample | Monitor/options.py:22-32 | `NIFTY24DEC24900PE` decodes to NIFTY, Tuesday 31 December 2024, 24900, PE |
| Symbols.WeeklyExample | Monitor/options.py:34-40 | the source's own example `NIFTY2592324900PE` decodes as written to 25 September 2023 |
| Symbols.MonthlyLayout | Monitor/options.py:26-32 | any upper-case index, two-digit year, month name, strike and CE/PE decode back to those parts, with the expiry on the month's last expiry weekday |
| Symbols.MonthlyExpiryUnique | Monitor/options.py:32 | two monthly symbols that differ only in the strike decode to the same expiry |
| Risk.BaseFactorLadder | Monitor/options.py:178-188 | the DTE factor lies between 1.0 and 1.5 and never falls as the expiry moves further away |
| Risk.VixFactorLadder | Monitor/options.py:200-211 | the VIX factor lies between 0.8 and 2.0 and never falls as the VIX rises |
| Risk.SlFactor | Monitor/options.py:213 | `1 + (base − 1) × vix` is never below 1 |
| Risk.SlFactorMonotoneInDte | Monitor/options.py:178-213 | more days to expiry never lowers the stop-loss factor |
| Risk.SlFactorMonotoneInVix | Monitor/options.py:200-213 | a higher VIX never lowers the stop-loss factor |
| Risk.SlFactorNearExpiry | Monitor/options.py:187-213 | within five days of expiry the factor is exactly 1, whatever the VIX |
| Risk.SlFactorFarCalm | Monitor/options.py:179-213 | far from expiry in a calm market (VIX below 10) the factor is 1.4 |
| Risk.StopLossExample | Monitor/options.py:214-217 | with 200 collected, 25 days and VIX 9, an earned premium of 290 hits the stop loss and 270 does not |
| Risk.DefaultSpot | Monitor/options.py:237-239 | a failed index quote falls back to the midpoint of the short strikes |
| Risk.DefaultSpotNearing | Monitor/options.py:237-242 | with that fallback, the nearing-strike test fires exactly when the short strikes are at most 400 points apart |
| Risk.Trail | Monitor/options.py:261-283 | the hit counter rises exactly when the P&L is at or below a positive lock. The close path raises exactly when the counter passes the threshold while a leg fails to decode. The lock moves to `pnl − trail` once the P&L is at least lock + trail + 500 |
| Risk.TrailMonotone | Monitor/options.py:261-283 | the lock never falls and moves by at least 500 when it moves; the counter rises by at most one |
| Risk.TrailHitOrLock | Monitor/options.py:261-283 | a poll that counts a hit never moves the lock |
| Risk.TrailScenario | Monitor/options.py:257-284 | multiplier 0.1, quantity 1000, P&L 100 → 400 → 1200 locks 1100 |
| Risk.TrailFallbackScenario | Monitor/options.py:257-284 | falling back under the lock counts hits; the fourth hit past threshold 3 reaches the close path |
| Risk.AdjustmentRule | Monitor/options.py:292-315 | roll the call exactly when both prices are positive and call ≤ 55% of put; roll the put exactly when the call is above that and put ≤ 55% of call |
| Risk.AdjustmentRuleExclusive | Monitor/options.py:294-304 | both 55% tests can never hold at once for positive prices |
| Risk.AdjustmentRuleBalanced | Monitor/options.py:314-315 | prices within 55% of each other need no roll |
| Monitor.ChainQuote | Monitor/options.py:130-134 | a row quotes nothing for a symbol without an option type |
| Monitor.Mark | Monitor/options.py:129-135 | the mark is the quote of the first chain row with the option type, strike and expiry text; without one it is the broker's last price |
| Monitor.ScanOf | Monitor/options.py:109-141 | never more records than positions, and every position when the scan completes |
| Monitor.ScanFollowsReply | Monitor/options.py:109-141 | the records follow the reply in order: each is saved (`SaveOf`) under the same symbol, open exactly when the net quantity is non-zero. The scan completes exactly when every position was read |
| Monitor.ScanStops | Monitor/options.py:118 | after a symbol `split_symbol` cannot decode (the tuple unpacking raises), no later position is read |
| Monitor.Reset | Monitor/options.py:100-102 | the position lists and the premium totals are cleared; putting those four fields back gives the old book, so nothing else changes |
| Monitor.ResetKeepsLegs | Monitor/options.py:100-102 | the leg symbols, prices and entries survive the reset |
| Monitor.RunningMin | Monitor/options.py:142 | the quantity is at most its start and every open quantity, and equals one of them |
| Monitor.RunningMinStable | Monitor/options.py:60 | a start below every open quantity stays put |
| Monitor.Latest | Monitor/options.py:146-162 | a leg comes from the last open record of its role, or no record has that role |
| Monitor.AbsorbLegs | Monitor/options.py:143-162 | one record changes only its own role's leg, and only when open |
| Monitor.AbsorbOthers | Monitor/options.py:137-145 | one record is appended to the open or the closed list. An open one lowers the quantity and moves the totals by its signed prices |
| Monitor.ProcessPositionsSummary | Monitor/options.py:98-163 | after reconciling, the open and closed lists are the records in reply order and together count every record. The totals are the signed sums over the open records, and the quantity is the running minimum |
| Monitor.ProcessPositionsLegs | Monitor/options.py:143-162 | each leg is the latest open record of its role, or the previous cycle's leg when there is none; the role (`RoleOf`) is fixed by the side and by a PE suffix |
| Monitor.OpensClosedsCount | Monitor/options.py:137-141 | every record lands in exactly one of the two lists |
| Monitor.ProcessPositionsFailedReply | Monitor/options.py:100-105 | a failed reply only clears the lists and totals |
| Monitor.ProcessPositionsIdempotent | Monitor/options.py:98-163 | reconciling the same reply twice gives the same state as once |
| Monitor.ClosedRecordInert | Monitor/options.py:137-139 | an extra closed position changes only the closed list |
| Monitor.PnlOfAppend | Monitor/options.py:166-172 | the P&L of two lists is the sum of their P&Ls |
| Monitor.PnlFromTotals | Monitor/options.py:166-172 | with one common quantity, the P&L is quantity × (collected − earned) |
| Monitor.DecodeLeg | Monitor/options.py:222-225 | a leg decodes exactly when its symbol is set and `split_symbol` parses it |
| Monitor.DecodeLegs | Monitor/options.py:222-225 | the four legs decode together or the stop-loss check raises |
| Monitor.StopCheckOf | Monitor/options.py:177-255 | the factor is the ladder at the DTE and the VIX (default 12). The stop loss fires exactly when earned ≥ collected × factor. Nearing fires from the index quote or the strike midpoint. Nothing is closed |
| Monitor.StopLossCheck | Monitor/options.py:175-255 | raises exactly when a leg fails to decode; otherwise DTE is the long call's expiry minus today, and the result never asks to close |
| Monitor.Adjustments | Monitor/options.py:285-317 | raises exactly when a leg fails to decode, and then sends no order, since all four legs are decoded before any order; otherwise it sends either no orders or a BUY of the decayed short leg with a SELL of the leg 50 points closer. It sends nothing when either price is not positive |
| Monitor.AdjustmentsAsWritten | Monitor/options.py:285-313 | as written: it raises exactly when a leg fails to decode or a roll is due, and sends at most one order, the BUY of the decayed short leg at the monitor's quantity, exactly when the legs decode and a roll is due; a leg that fails to decode sends nothing |
| Monitor.AdjustmentsTouchOneShortLeg | Monitor/options.py:292-313 | a roll buys back one short leg and sells one replacement, both at the monitor's quantity |
| Monitor.AdjustmentsAsWrittenStopsAfterBuy | Monitor/options.py:297-302 | as written, a roll sends only the BUY and then raises |
| Monitor.RollTargetDecodes | Monitor/options.py:300 | replacing the strike text of a monthly symbol gives a symbol with the same underlying, expiry and type and the new strike |
| Monitor.RollTarget | Monitor/options.py:300-310 | `symbol.replace(str(strike), str(new))` on the strike's text; a roll to the same strike leaves the symbol as it is |
| Monitor.HandleOptions.constructor | Monitor/options.py:52-60 | a new account object has no lock, no hits, quantity 1000000 and an empty book |
| Monitor.HandleOptions.ProcessPositions | Monitor/options.py:98-163 | the new book and the completion flag are those of `AfterProcess` on the old book and the reply; the trailing state is untouched |
| Monitor.AfterProcess | Monitor/options.py:98-163 | a failed reply only empties the lists and reports completion; otherwise every record absorbed lands in one of the two lists, and the scan reports completion exactly when the lists hold as many records as the reply |
| Monitor.HandleOptions.AbsorbReply | Monitor/options.py:108-163 | the loop over the reply: the book absorbs the scan's entries and the flag is the scan's completion |
| Monitor.HandleOptions.SaveRecord | Monitor/options.py:137-162 | one record is absorbed into the book |
| Monitor.HandleOptions.TakeBoughtLeg | Monitor/options.py:143-151 | a bought record moves the long leg of its type and subtracts its prices from the totals |
| Monitor.HandleOptions.TakeSoldLeg | Monitor/options.py:152-162 | a sold record moves the short leg of its type, with its entry, and adds its prices to the totals |
| Monitor.HandleOptions.GetPnl | Monitor/options.py:165-173 | the loop's sum is the P&L of the open records |
| Monitor.HandleOptions.TrailProfit | Monitor/options.py:257-284 | the lock and the counter move as the trailing step prescribes, with trail = quantity × multiplier; it raises only on the close path with an undecodable leg |
| Monitor.HandleOptions.Run | Monitor/options.py:326-342 | an off-roster account is untouched. Otherwise the new book is the reconciled one (`AfterProcess`), and the last three stages run exactly when the scan completed, four positions are open and the legs decode. With four open positions and a leg that does not decode, the cycle stops after the stop-loss stage with lock and counter unchanged. An exception is reported exactly when the reply fails or that decode fails. Once the trail stage runs, lock and counter are exactly the `Trail` step on the reconciled P&L and the adjustments run exactly when that step does not raise; otherwise both are unchanged. Orders come only from the corrected roll (`Adjustments`), which sends the SELL that the source as written never reaches (`AdjustmentsAsWritten`) |
| Roster.Supervisor.constructor | Monitor/options.py:352 | the roster starts empty |
| Roster.Supervisor.Refresh | Monitor/options.py:356-367 | an empty or missing roster changes nothing. Otherwise the accounts become exactly the roster's: survivors keep their objects, dropped users lose theirs, and new users get fresh initial objects |
| Roster.Supervisor.StaleUsers | Monitor/options.py:357-361 | the users to remove are exactly the held users missing from the roster |
| Roster.Supervisor.Drop | Monitor/options.py:362-363 | exactly the listed users are deleted, the rest keep their objects |
| Roster.Supervisor.Enroll | Monitor/options.py:365-367 | every roster user gets an object; existing ones are kept and new ones are fresh |
| Strangle.DaysAhead | Strategies/my_strangle.py:32-34 | the step is always one to seven days |
| Strangle.NextThursday | Strategies/my_strangle.py:29-35 | the result is a valid date, `days_ahead` ordinals after the start |
| Strangle.NextThursdayIsNext | Strategies/my_strangle.py:32-35 | the result is a Thursday, 1 to 7 days on, the first Thursday strictly after the start; from a Thursday it is a full week on |
| Strangle.ThursdayStep | Strategies/my_strangle.py:32-34 | from any weekday the step lands on weekday 3 and passes no other Thursday |
| Strangle.GenerateInstrumentName | Strategies/my_strangle.py:62-75 | a name exactly when the expiry text parses; it starts with the index and ends with the option type |
| Strangle.MonthlyInstrumentName | Strategies/my_strangle.py:62-75 | a MONTHLY name (any case) is index, two-digit year, capitalised month, `int(strike)`, type |
| Strangle.WeeklyInstrumentName | Strategies/my_strangle.py:70-74 | any other name is index, two-digit year, unpadded month number, two-digit day, strike, type |
| Strangle.MonthlyNameRoundTrip | Strategies/my_strangle.py:62-75 | `split_symbol` of a monthly name gives back the index, year, month, strike and type, with the expiry on the month's last expiry weekday |
| Strangle.WeeklyNameMisread | Strategies/my_strangle.py:70-74 | the weekly name for 2 October 2025 (`NIFTY25100224900PE`) is read back by `split_symbol` as 25 October 2002 |
| Strangle.LastOfTypeIsLast | Strategies/my_strangle.py:119-124 | the chosen position has the type and no later one has it, or none has it |
| Strangle.TotalProfits | Strategies/my_strangle.py:108-125 | raises exactly on an empty list or a zero lot size. Otherwise the gains are summed; the lots come from the last position; the last PUT and last CALL are reported, or None and 0 |
| Strangle.MaxLossThreshold | Strategies/my_strangle.py:146 | the threshold is minus truncated lots × loss per lot, never positive for non-negative inputs |
| Strangle.CountLoss | Strategies/my_strangle.py:209-212 | the counter is cleared exactly when the profit is above the threshold and rises by one otherwise |
| Strangle.LockStep | Strategies/my_strangle.py:255-260 | raises exactly for a zero unit. From two units the lock only rises, to between 0.5 and 1.5 units below the profit; between one and two units it is 0; at or below one unit it stays |
| Strangle.RatioAtLeastTwo | Strategies/my_strangle.py:256 | for a positive unit, the ratio test is the profit test `profit ≥ 2 × unit` |
| Strangle.LockedNearProfit | Strategies/my_strangle.py:257-258 | `unit × round(profit/unit − 1)` lies within half a unit of `profit − unit` |
| Strangle.LockBelowProfit | Strategies/my_strangle.py:255-260 | a newly ratcheted lock is below the profit that set it, so it cannot count as a loss |
| Strangle.LockStepExamples | Strategies/my_strangle.py:256-260 | unit 1000: profit 3500 locks 2000 (2.5 rounds to even), 3400 locks 2000, and 1500 sets break-even |
| Strangle.LossGuard.constructor | Strategies/my_strangle.py:146-158 | the threshold starts at −lots × loss per lot, with no hits |
| Strangle.LossGuard.Poll | Strategies/my_strangle.py:202-260 | adopt the lots (recomputing the threshold when they changed), count the poll, apply the lock. When the lock raises, the threshold is left at the recomputed value. The exit is reached exactly when the counter passes the wait count on a calm day |
| Kite.Prefix | TradingBroker/kite_api_bot.py:91-96 | BANKNIFTY is tested before NIFTY; any other prefix is unknown |
| Kite.MonthLikeTwoDigits | TradingBroker/kite_api_bot.py:93-96 | the month test on `s[11:13]` / `s[7:9]` (numeric and at most 12) accepts exactly 00-09, 10, 11 and 12 |
| Kite.SplitStrikeAsWritten | TradingBroker/kite_api_bot.py:88-100 | raises exactly for an unknown prefix. Otherwise: index, expiry field, `s[-7:-2]` and `s[-2:]` |
| Kite.SplitStrike | TradingBroker/kite_api_bot.py:88-100 | the corrected splitter: the expiry is everything between the index and the last seven characters |
| Kite.SplitStrikeRoundTrip | TradingBroker/kite_api_bot.py:97-98 | index + any expiry + five-character strike + two-character type splits back to the four parts |
| Kite.AsWrittenAgrees | TradingBroker/kite_api_bot.py:91-96 | the as-written splitter (six expiry characters when the two after the year read as a number of at most 12, five otherwise) is right exactly when that choice agrees with the expiry's real length |
| Kite.SwallowedStrikeDigit | TradingBroker/kite_api_bot.py:93 | a five-character expiry whose middle two characters read as a month number is read as written with the strike's first digit appended |
| Kite.FiveCharacterExpiry | TradingBroker/kite_api_bot.py:91-96 | a five-character expiry without a month number in its middle splits correctly as written |
| Kite.WeeklyExample | TradingBroker/kite_api_bot.py:89-93 | `BANKNIFTY2461949800PE` → (BANKNIFTY, 24619, 49800, PE) |
| Kite.MonthlyExample | TradingBroker/kite_api_bot.py:94-98 | `NIFTY24DEC24900PE` → (NIFTY, 24DEC, 24900, PE) |
| Kite.JanuaryWeeklyMisread | TradingBroker/kite_api_bot.py:93 | `BANKNIFTY2412548000CE` (25 January 2024) gives the expiry `241254` as written and `24125` corrected |
| BackTest.TotalPositive | BackTesting/nifty_back_test.py:101-107 | a ledger of positive lots holds a non-negative total, at least its front lot |
| BackTest.TotalAppend | BackTesting/nifty_back_test.py:77-78 | appending a lot adds its units |
| BackTest.TakeConsumed | BackTesting/nifty_back_test.py:101-112 | a withdrawal takes min(request, holding); the rest holds the remainder in positive lots |
| BackTest.Take | BackTesting/nifty_back_test.py:101-112 | the FIFO withdrawal as a function on the lots: the lots left plus the lots popped are the lots held |
| BackTest.TakeShape | BackTesting/nifty_back_test.py:101-112 | only whole front lots are popped and at most the next is reduced, at its price; the lots behind are untouched and in order |
| BackTest.TakeInFull | BackTesting/nifty_back_test.py:94-112 | a request below the holding is met in full and leaves units behind |
| BackTest.TakePop | BackTesting/nifty_back_test.py:103-107 | a front lot that fits is consumed whole |
| BackTest.TakeTrim | BackTesting/nifty_back_test.py:108-112 | a larger front lot gives up the request and stays |
| BackTest.Drawdown | BackTesting/nifty_back_test.py:130 | between 0 and 1 below a positive peak, 0 without one |
| BackTest.Ledger.Buy | BackTesting/nifty_back_test.py:76-78 | the lot is appended at the back and `units` grows by its units |
| BackTest.Ledger.Withdraw | BackTesting/nifty_back_test.py:97-112 | the loop leaves the ledger `Take` prescribes, lowers `units` by the units taken, and raises cash of units taken × price |
| BackTest.Ledger.TakeFront | BackTesting/nifty_back_test.py:102-112 | one pass pops or trims the front lot |
| BackTest.Ledger.PopFront | BackTesting/nifty_back_test.py:106-107 | `popleft` with the units subtracted |
| BackTest.Ledger.TrimFront | BackTesting/nifty_back_test.py:110-111 | the front lot loses the amount, as does `units` |
| BackTest.Portfolio.constructor | BackTesting/nifty_back_test.py:14-44 | the settings and zero state at the top of the script |
| BackTest.Portfolio.Step | BackTesting/nifty_back_test.py:46-131 | the first row invests the lump sum as a single lot. Later rows invest exactly on a 1% move past the 30-day gap. Otherwise they withdraw exactly on gain ≥ threshold with enough units past the gap, raising the threshold by 12. Otherwise they only track. For each action the whole new state is given: ledger, invested sums, the last action value that the next row's change is measured from, the peak, the drawdown, the threshold, both dates and the investment range, each either updated or unchanged |
| BackTest.Portfolio.Begin | BackTesting/nifty_back_test.py:52-66 | one lot of `initial_investment / price` units; the last action value and the peak start at the market value; the totals, the investment range, the threshold, the drawdown and the withdrawal date stay |
| BackTest.Portfolio.InvestRow | BackTesting/nifty_back_test.py:76-89 | a lot is appended, both invested sums grow by 100000, the last action value is the new market value and the peak is max(peak, value); the withdrawals, the investment range, the threshold, the drawdown and the withdrawal date stay |
| BackTest.Portfolio.WithdrawRow | BackTesting/nifty_back_test.py:95-123 | FIFO sale of 100000 worth, met in full; threshold up by 12, withdrawals up by 100000, the last action value is the new market value; the invested sums, the investment range, the drawdown and the invest date stay |
| BackTest.Portfolio.Track | BackTesting/nifty_back_test.py:127-131 | the investment range, the peak and the drawdown as running maxima and minima; the last action value, the dates, the threshold and all invested and withdrawn sums stay |
| BackTest.Portfolio.Replay | BackTesting/nifty_back_test.py:46-131 | only the first row of a fresh portfolio invests the lump sum; peak and drawdown never fall |

## Left out

- HTTP calls to the local trading API, YAML and file reads, logging, `time.sleep`: replaced by parameters and return values.
- Threading in the supervisor loop and the `run_user` wrapper: one account cycle is modelled sequentially.
- `watch` reads `watch_sync.yaml` on each call; the roster is passed in.
- `round(..., 2)` in `get_pnl`, the trail amount and the default spot is not modelled; values stay exact.
- Text.ParseInt: accepts an optional sign and ASCII digits only. Python's `int` also accepts surrounding whitespace, underscores and other Unicode digits, which the symbols never contain.
- Kite.IsNumeric: treats only ASCII digits as numeric, where `str.isnumeric` also accepts other Unicode numerals.
- Dates.FormatDateRoundTrip: stated only for four-digit years, the range `%Y` writes and reads back unpadded.
- Strangle.MonthlyNameRoundTrip: stated only for years 2000-2099, because `split_symbol` adds 2000 to the two-digit year.
- Strangle.NextThursday: works on dates only; the time of day of `datetime.today()` passes through unchanged and is not modelled.
- Strangle.LossGuard.Poll: the market-hours checks, the end-time close branch and `stay_on` are not modelled; the close orders there are commented out in the source, so `stay_on` stays true at the lock.
- Strangle.TotalProfits: `quantity` is an integer and a lot size of zero raises; the `DataFrame` logging is left out.
- Monitor.RollTargetDecodes: covers monthly symbols only. In a weekly symbol the date digits sit right before the strike, and `str.replace` rewrites every occurrence of the strike's text, so no lemma shows that a weekly roll target decodes to the new strike.
- Monitor.HandleOptions.Run: sends both orders of the corrected roll (`Monitor.Adjustments`); the source as written sends only the BUY and then raises `TypeError` (`Monitor.AdjustmentsAsWritten`), which `run_user` swallows.
- BackTest.Portfolio.Step: requires a positive closing price. A zero price raises `ZeroDivisionError` on the first row (`BackTesting/nifty_back_test.py:54`) and on a row where a purchase is due (`:76`). On any other row the source survives it: the gain test at `:94` fails before `withdraw_amount / price` is evaluated, and the row is only tracked, with a drawdown of 1. The model does not cover that case.
- `get_strike_price` (pandas filtering), `strangle_orders` and `get_indices` (broker and market-data I/O), and the retry loop around the option chain.
- The broker wrapper apart from `__split_strike`: Selenium login, TOTP and the KiteConnect calls.
- The back-test's `xnpv`/`xirr` (Newton and Brent root finding with fractional powers), CSV loading and saving, printing and the final-redemption row.
- main.py, BackTesting/back_test.py and MarketAnalysis: pandas and plotting back-tests, scraping, and normal-CDF strike selection.
- A chain row carries its option-type quote as an optional number. A matching row whose quote has no `lastPrice` key is not modelled: `.get('lastPrice')` at `Monitor/options.py:134` stores `None` as the last price, which `Monitor/options.py:145` or `:154` then adds to a total and raises `TypeError` for an open record; a closed record (`Monitor/options.py:137-139`) passes through with `None`.

## Findings

| source | as written | input that shows it | evidently intended | confidence | as-written member | corrected member |
|---|---|---|---|---|---|---|
| Monitor/options.py:300 | `self.short_call_symbol.replace(short_call_strike, ...)` passes the integer strike from `split_symbol` to `str.replace`, which raises `TypeError`, so after the BUY of the short call the SELL of the replacement is never sent (line 310 does the same for the put) | legs that decode, with short call price 10 and short put price 100 (10 ≤ 55) | replace the strike's decimal text, selling the leg 50 points closer | not executed | Monitor.AdjustmentsAsWritten | Monitor.Adjustments |
| TradingBroker/kite_api_bot.py:93 | the six-character expiry is chosen when `s[11:13]` reads as a number ≤ 12, which a weekly January expiry always does for days 1-29 (`YY1DD`) | `BANKNIFTY2412548000CE` gives expiry `241254` and still strike `48000` | the expiry is the text between the index and the five-digit strike (`24125`) | not executed | Kite.SplitStrikeAsWritten | Kite.SplitStrike |
