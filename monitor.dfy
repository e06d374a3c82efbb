/**
 * The per-account position monitor of Monitor/options.py (`handle_options`).
 * One object per account keeps the broker positions last seen, the four
 * iron-condor legs, the premium totals and the trailing-profit lock. Each
 * cycle reconciles the positions, evaluates the stop loss, trails the
 * profit and, if needed, rolls one short leg.
 *
 * Replies of the local trading API are inputs: the position reply is an
 * `Option` (None when the API reports failure), the option-chain query is a
 * function from underlying to an optional chain, and the price query is a
 * function from quote name to an optional price. Orders sent with
 * `place_order` are returned as `Order` records. Floats are exact reals.
 */
module Monitor {
  import opened Wrappers
  import opened Text
  import opened Dates
  import opened Symbols
  import opened Risk

  /** One record of the broker's position reply. */
  datatype RawPosition = RawPosition(
    tradingSymbol: string, buyQuantity: int, sellQuantity: int,
    averagePrice: real, lastPrice: real, pnl: real, quantity: int)

  /** One row of the option chain: strike, expiry text and the last price of each side quoted. */
  datatype ChainItem = ChainItem(strikePrice: int, expiryDate: string, ce: Option<real>, pe: Option<real>)

  datatype Side = Buy | Sell

  /** `position_to_save`: a position as the monitor keeps it. */
  datatype Saved = Saved(symbol: string, side: Side, transPrice: real, quantity: int, pnl: real, lastPrice: real)

  /** An order sent through `place_order`. */
  datatype Order = Order(symbol: string, quantity: int, side: Side)

  /** `trailing_profit_multiplier` and `trail_profit_threshold` of the account configuration. */
  datatype Config = Config(trailingProfitMultiplier: real, trailProfitThreshold: int)

  /** The positions, legs and premium totals `process_positions` maintains. */
  datatype Book = Book(
    positions: seq<Saved>, closedPositions: seq<Saved>, quantity: int,
    longPutSymbol: Option<string>, shortPutSymbol: Option<string>,
    shortCallSymbol: Option<string>, longCallSymbol: Option<string>,
    shortPutEntry: real, shortCallEntry: real,
    longPutPrice: real, shortPutPrice: real, shortCallPrice: real, longCallPrice: real,
    totalPremiumCollected: real, totalPremiumEarned: real)

  /** The lot quantity an account starts from before any position lowers it. */
  const InitialQuantity: int := 1000000

  /** The state of a new account object: nothing saved, no legs, zero prices and totals. */
  const InitialBook: Book := Book([], [], InitialQuantity, None, None, None, None,
                                  0.0, 0.0, 0.0, 0.0, 0.0, 0.0, 0.0, 0.0)

  // ---------------------------------------------------------------------
  // Marks from the option chain
  // ---------------------------------------------------------------------

  /** `item.get(option_type).get('lastPrice')` when `option_type in item`. */
  function ChainQuote(item: ChainItem, optionType: Option<string>): (q: Option<real>)
    ensures optionType.None? ==> q.None?
  {
    if optionType == Some("CE") then item.ce
    else if optionType == Some("PE") then item.pe
    else None
  }

  /** A chain row quotes the option: it carries its side, its strike and its expiry date text. */
  predicate Quotes(item: ChainItem, sym: Symbol)
    requires Valid(sym.expiry)
  {
    ChainQuote(item, sym.optionType).Some?
    && item.strikePrice == sym.strike && item.expiryDate == FormatDate(sym.expiry)
  }

  predicate NoQuoteBefore(chain: seq<ChainItem>, sym: Symbol, k: int)
    requires Valid(sym.expiry) && 0 <= k <= |chain|
  {
    forall j | 0 <= j < k :: !Quotes(chain[j], sym)
  }

  /** The price of the first chain row that quotes the option, or `fallback` when none does. */
  function Mark(chain: seq<ChainItem>, sym: Symbol, fallback: real): (m: real)
    requires Valid(sym.expiry)
    ensures NoQuoteBefore(chain, sym, |chain|) ==> m == fallback
    ensures forall k | 0 <= k < |chain| && Quotes(chain[k], sym) && NoQuoteBefore(chain, sym, k) ::
              m == ChainQuote(chain[k], sym.optionType).value
    decreases |chain|
  {
    if chain == [] then fallback
    else if Quotes(chain[0], sym) then ChainQuote(chain[0], sym.optionType).value
    else
      var m := Mark(chain[1..], sym, fallback);
      assert forall k | 1 <= k < |chain| :: chain[k] == chain[1..][k - 1];
      m
  }

  // ---------------------------------------------------------------------
  // process_positions as functions on values
  // ---------------------------------------------------------------------

  /** One record as saved: buy when anything was bought, with that side's quantity. */
  function SaveOf(p: RawPosition, mark: real): (s: Saved)
    ensures s.symbol == p.tradingSymbol && s.transPrice == p.averagePrice && s.lastPrice == mark
    ensures s.side == Buy <==> p.buyQuantity > 0
    ensures s.quantity == if p.buyQuantity > 0 then p.buyQuantity else p.sellQuantity
  {
    if p.buyQuantity > 0 then Saved(p.tradingSymbol, Buy, p.averagePrice, p.buyQuantity, p.pnl, mark)
    else Saved(p.tradingSymbol, Sell, p.averagePrice, p.sellQuantity, p.pnl, mark)
  }

  /** A saved record and whether it is open (net quantity not zero). */
  datatype Entry = Entry(saved: Saved, open: bool)

  /** The records saved so far, the option chain held, and whether every symbol decoded. */
  datatype Scan = Scan(entries: seq<Entry>, chain: seq<ChainItem>, complete: bool)

  /**
   * The loop of `process_positions` over the reply: each symbol is decoded
   * (an undecodable one raises and ends the scan); while no chain is held the
   * chain of the position's underlying is queried; the mark is refreshed from
   * it; the record is saved as open or closed.
   */
  function ScanOf(ps: seq<RawPosition>, chainOf: string -> Option<seq<ChainItem>>): (r: Scan)
    ensures |r.entries| <= |ps|
    ensures r.complete ==> |r.entries| == |ps|
    decreases |ps|
  {
    if ps == [] then Scan([], [], true)
    else
      var s := ScanOf(ps[..|ps| - 1], chainOf);
      var p := ps[|ps| - 1];
      if !s.complete then s
      else
        match SplitSymbol(p.tradingSymbol)
        case Parsed(sym) =>
          var chain := if |s.chain| == 0 then chainOf(sym.underlying).GetOr([]) else s.chain;
          Scan(s.entries + [Entry(SaveOf(p, Mark(chain, sym, p.lastPrice)), p.quantity != 0)], chain, true)
        case _ => Scan(s.entries, s.chain, false)
  }

  /** Once a symbol fails to decode, the rest of the reply is never looked at. */
  lemma {:induction false} ScanStops(ps: seq<RawPosition>, i: nat, chainOf: string -> Option<seq<ChainItem>>)
    requires i <= |ps| && !ScanOf(ps[..i], chainOf).complete
    ensures ScanOf(ps, chainOf) == ScanOf(ps[..i], chainOf)
    decreases |ps|
  {
    if i < |ps| {
      var init := ps[..|ps| - 1];
      assert init[..i] == ps[..i];
      ScanStops(init, i, chainOf);
    } else {
      assert ps[..i] == ps;
    }
  }

  lemma ScanStopsStep(ps: seq<RawPosition>, i: nat, chainOf: string -> Option<seq<ChainItem>>)
    requires i < |ps| && !ScanOf(ps[..i], chainOf).complete
    ensures ScanOf(ps[..i + 1], chainOf) == ScanOf(ps[..i], chainOf)
  {
    assert ps[..i + 1][..i] == ps[..i];
  }

  /** `symbol[-2:] == 'PE'` picks the put leg; `transtype` picks long or short. */
  datatype Role = LongPut | LongCall | ShortPut | ShortCall

  function RoleOf(s: Saved): (r: Role)
    ensures r == LongPut <==> s.side == Buy && LastTwo(s.symbol) == "PE"
    ensures r == LongCall <==> s.side == Buy && LastTwo(s.symbol) != "PE"
    ensures r == ShortPut <==> s.side == Sell && LastTwo(s.symbol) == "PE"
    ensures r == ShortCall <==> s.side == Sell && LastTwo(s.symbol) != "PE"
  {
    var put := LastTwo(s.symbol) == "PE";
    match s.side
    case Buy => if put then LongPut else LongCall
    case Sell => if put then ShortPut else ShortCall
  }

  /** The fields cleared at the start of every call. */
  function Reset(b: Book): (r: Book)
    ensures r.positions == [] && r.closedPositions == []
    ensures r.totalPremiumCollected == 0.0 && r.totalPremiumEarned == 0.0
    ensures r.(positions := b.positions, closedPositions := b.closedPositions,
               totalPremiumCollected := b.totalPremiumCollected, totalPremiumEarned := b.totalPremiumEarned) == b
  {
    b.(positions := [], closedPositions := [], totalPremiumCollected := 0.0, totalPremiumEarned := 0.0)
  }

  /**
   * Saving one record: a closed one is only listed; an open one is listed, may
   * lower the lot quantity, moves both premium totals (bought legs subtract,
   * sold legs add) and becomes the leg of its role.
   */
  function Absorb(b: Book, e: Entry): Book {
    var s := e.saved;
    if !e.open then b.(closedPositions := b.closedPositions + [s])
    else TakeLeg(b.(positions := b.positions + [s], quantity := if s.quantity < b.quantity then s.quantity else b.quantity), s)
  }

  /** An open record moves both premium totals and becomes the leg of its role. */
  function TakeLeg(b: Book, s: Saved): Book {
    match RoleOf(s)
    case LongPut =>
      b.(totalPremiumCollected := b.totalPremiumCollected - s.transPrice,
         totalPremiumEarned := b.totalPremiumEarned - s.lastPrice,
         longPutSymbol := Some(s.symbol), longPutPrice := s.lastPrice)
    case LongCall =>
      b.(totalPremiumCollected := b.totalPremiumCollected - s.transPrice,
         totalPremiumEarned := b.totalPremiumEarned - s.lastPrice,
         longCallSymbol := Some(s.symbol), longCallPrice := s.lastPrice)
    case ShortPut =>
      b.(totalPremiumCollected := b.totalPremiumCollected + s.transPrice,
         totalPremiumEarned := b.totalPremiumEarned + s.lastPrice,
         shortPutSymbol := Some(s.symbol), shortPutEntry := s.transPrice, shortPutPrice := s.lastPrice)
    case ShortCall =>
      b.(totalPremiumCollected := b.totalPremiumCollected + s.transPrice,
         totalPremiumEarned := b.totalPremiumEarned + s.lastPrice,
         shortCallSymbol := Some(s.symbol), shortCallEntry := s.transPrice, shortCallPrice := s.lastPrice)
  }

  function AbsorbAll(b: Book, es: seq<Entry>): Book
    decreases |es|
  {
    if es == [] then b else Absorb(AbsorbAll(b, es[..|es| - 1]), es[|es| - 1])
  }

  lemma AbsorbAllSnoc(b: Book, es: seq<Entry>, e: Entry)
    ensures AbsorbAll(b, es + [e]) == Absorb(AbsorbAll(b, es), e)
  {
    assert (es + [e])[..|es|] == es;
  }

  /**
   * `process_positions` on one reply: the new book, and whether the call
   * returned normally (false when a symbol could not be decoded). A failed
   * reply leaves the book cleared.
   */
  function AfterProcess(b: Book, reply: Option<seq<RawPosition>>, chainOf: string -> Option<seq<ChainItem>>): (r: (Book, bool))
    ensures reply.None? ==> r.1 && r.0.positions == [] && r.0.closedPositions == []
    ensures reply.Some? ==> |r.0.positions| + |r.0.closedPositions| <= |reply.value|
    ensures reply.Some? ==> (r.1 <==> |r.0.positions| + |r.0.closedPositions| == |reply.value|)
  {
    match reply
    case None => (Reset(b), true)
    case Some(ps) =>
      var s := ScanOf(ps, chainOf);
      ScanFollowsReply(ps, chainOf);
      ProcessPositionsSummary(b, s.entries);
      (AbsorbAll(Reset(b), s.entries), s.complete)
  }

  lemma AfterProcessReply(b: Book, ps: seq<RawPosition>, chainOf: string -> Option<seq<ChainItem>>)
    ensures AfterProcess(b, Some(ps), chainOf) == (AbsorbAll(Reset(b), ScanOf(ps, chainOf).entries), ScanOf(ps, chainOf).complete)
  {
  }

  // ---------------------------------------------------------------------
  // What process_positions computes
  // ---------------------------------------------------------------------

  function Opens(es: seq<Entry>): (r: seq<Saved>)
    ensures |r| <= |es|
    decreases |es|
  {
    if es == [] then [] else Opens(es[..|es| - 1]) + (if es[|es| - 1].open then [es[|es| - 1].saved] else [])
  }

  function Closeds(es: seq<Entry>): (r: seq<Saved>)
    ensures |r| <= |es|
    decreases |es|
  {
    if es == [] then [] else Closeds(es[..|es| - 1]) + (if es[|es| - 1].open then [] else [es[|es| - 1].saved])
  }

  /** The signed sum of entry prices: sold legs add, bought legs subtract. */
  function Collected(recs: seq<Saved>): real
    decreases |recs|
  {
    if recs == [] then 0.0
    else
      var s := recs[|recs| - 1];
      Collected(recs[..|recs| - 1]) + (if s.side == Buy then -s.transPrice else s.transPrice)
  }

  /** The same signed sum over the marks. */
  function Earned(recs: seq<Saved>): real
    decreases |recs|
  {
    if recs == [] then 0.0
    else
      var s := recs[|recs| - 1];
      Earned(recs[..|recs| - 1]) + (if s.side == Buy then -s.lastPrice else s.lastPrice)
  }

  /** `quantity = min(quantity, q)` over the records, starting from `q0`. */
  function RunningMin(q0: int, recs: seq<Saved>): (q: int)
    ensures q <= q0
    ensures forall k | 0 <= k < |recs| :: q <= recs[k].quantity
    ensures q == q0 || exists k | 0 <= k < |recs| :: q == recs[k].quantity
    decreases |recs|
  {
    if recs == [] then q0
    else
      var q := RunningMin(q0, recs[..|recs| - 1]);
      var x := recs[|recs| - 1].quantity;
      assert forall k | 0 <= k < |recs| - 1 :: recs[k] == recs[..|recs| - 1][k];
      if x < q then x else q
  }

  /** The last record of a role, if any. */
  function Latest(recs: seq<Saved>, role: Role): (r: Option<Saved>)
    ensures r.Some? ==> r.value in recs && RoleOf(r.value) == role
    ensures r.None? ==> forall k | 0 <= k < |recs| :: RoleOf(recs[k]) != role
    decreases |recs|
  {
    if recs == [] then None
    else if RoleOf(recs[|recs| - 1]) == role then Some(recs[|recs| - 1])
    else
      var r := Latest(recs[..|recs| - 1], role);
      assert forall k | 0 <= k < |recs| - 1 :: recs[k] == recs[..|recs| - 1][k];
      r
  }

  /** The symbol field of a leg. */
  function LegSymbol(b: Book, role: Role): Option<string> {
    match role
    case LongPut => b.longPutSymbol
    case LongCall => b.longCallSymbol
    case ShortPut => b.shortPutSymbol
    case ShortCall => b.shortCallSymbol
  }

  /** The mark field of a leg. */
  function LegPrice(b: Book, role: Role): real {
    match role
    case LongPut => b.longPutPrice
    case LongCall => b.longCallPrice
    case ShortPut => b.shortPutPrice
    case ShortCall => b.shortCallPrice
  }

  /** The entry-price field of a short leg (the long legs keep none). */
  function LegEntry(b: Book, role: Role): real {
    match role
    case ShortPut => b.shortPutEntry
    case ShortCall => b.shortCallEntry
    case _ => 0.0
  }

  /** A book that differs from `b` at most in its legs. */
  predicate SameOutsideLegs(b: Book, r: Book) {
    r == b.(longPutSymbol := r.longPutSymbol, longCallSymbol := r.longCallSymbol,
            shortPutSymbol := r.shortPutSymbol, shortCallSymbol := r.shortCallSymbol,
            shortPutEntry := r.shortPutEntry, shortCallEntry := r.shortCallEntry,
            longPutPrice := r.longPutPrice, longCallPrice := r.longCallPrice,
            shortPutPrice := r.shortPutPrice, shortCallPrice := r.shortCallPrice)
  }

  /** Two books with the same legs and the same other fields are the same book. */
  lemma BookExt(b: Book, r: Book)
    requires SameOutsideLegs(b, r)
    requires forall role :: LegSymbol(r, role) == LegSymbol(b, role)
    requires forall role :: LegPrice(r, role) == LegPrice(b, role)
    requires forall role :: LegEntry(r, role) == LegEntry(b, role)
    ensures r == b
  {
    assert LegSymbol(r, LongPut) == LegSymbol(b, LongPut) && LegSymbol(r, LongCall) == LegSymbol(b, LongCall);
    assert LegSymbol(r, ShortPut) == LegSymbol(b, ShortPut) && LegSymbol(r, ShortCall) == LegSymbol(b, ShortCall);
    assert LegPrice(r, LongPut) == LegPrice(b, LongPut) && LegPrice(r, LongCall) == LegPrice(b, LongCall);
    assert LegPrice(r, ShortPut) == LegPrice(b, ShortPut) && LegPrice(r, ShortCall) == LegPrice(b, ShortCall);
    assert LegEntry(r, ShortPut) == LegEntry(b, ShortPut) && LegEntry(r, ShortCall) == LegEntry(b, ShortCall);
  }

  /** Saving one record touches only the leg of its role, and only when it is open. */
  lemma AbsorbLegs(b: Book, e: Entry, role: Role)
    ensures var r := Absorb(b, e);
      var takes := e.open && RoleOf(e.saved) == role;
      && LegSymbol(r, role) == (if takes then Some(e.saved.symbol) else LegSymbol(b, role))
      && LegPrice(r, role) == (if takes then e.saved.lastPrice else LegPrice(b, role))
      && LegEntry(r, role) == (if takes && (role == ShortPut || role == ShortCall) then e.saved.transPrice else LegEntry(b, role))
  {
  }

  /** Saving one record: how the lists, the lot quantity and the totals move. */
  lemma AbsorbOthers(b: Book, e: Entry)
    ensures var r := Absorb(b, e);
      var s := e.saved;
      && r.positions == b.positions + (if e.open then [s] else [])
      && r.closedPositions == b.closedPositions + (if e.open then [] else [s])
      && r.quantity == (if e.open && s.quantity < b.quantity then s.quantity else b.quantity)
      && r.totalPremiumCollected == b.totalPremiumCollected + (if !e.open then 0.0 else if s.side == Buy then -s.transPrice else s.transPrice)
      && r.totalPremiumEarned == b.totalPremiumEarned + (if !e.open then 0.0 else if s.side == Buy then -s.lastPrice else s.lastPrice)
  {
  }

  function SymbolOr(r: Option<Saved>, keep: Option<string>): Option<string> {
    if r.Some? then Some(r.value.symbol) else keep
  }

  function PriceOr(r: Option<Saved>, keep: real): real {
    if r.Some? then r.value.lastPrice else keep
  }

  function EntryOr(r: Option<Saved>, role: Role, keep: real): real {
    if r.Some? && (role == ShortPut || role == ShortCall) then r.value.transPrice else keep
  }

  /** The lists, lot quantity and totals after saving `es` onto `b`. */
  predicate TotalsAbsorbed(b: Book, es: seq<Entry>, r: Book) {
    var o := Opens(es);
    && r.positions == b.positions + o
    && r.closedPositions == b.closedPositions + Closeds(es)
    && r.quantity == RunningMin(b.quantity, o)
    && r.totalPremiumCollected == b.totalPremiumCollected + Collected(o)
    && r.totalPremiumEarned == b.totalPremiumEarned + Earned(o)
  }

  /** Each leg after saving `es` onto `b`: the last open record of its role, else as before. */
  predicate LegAbsorbed(b: Book, es: seq<Entry>, r: Book, role: Role) {
    var l := Latest(Opens(es), role);
    && LegSymbol(r, role) == SymbolOr(l, LegSymbol(b, role))
    && LegPrice(r, role) == PriceOr(l, LegPrice(b, role))
    && LegEntry(r, role) == EntryOr(l, role, LegEntry(b, role))
  }

  lemma OpensSnoc(es: seq<Entry>, e: Entry)
    ensures Opens(es + [e]) == Opens(es) + (if e.open then [e.saved] else [])
    ensures Closeds(es + [e]) == Closeds(es) + (if e.open then [] else [e.saved])
  {
    assert (es + [e])[..|es|] == es;
  }

  lemma SavedSnoc(o: seq<Saved>, s: Saved, q: int, role: Role)
    ensures RunningMin(q, o + [s]) == (var m := RunningMin(q, o); if s.quantity < m then s.quantity else m)
    ensures Collected(o + [s]) == Collected(o) + (if s.side == Buy then -s.transPrice else s.transPrice)
    ensures Earned(o + [s]) == Earned(o) + (if s.side == Buy then -s.lastPrice else s.lastPrice)
    ensures Latest(o + [s], role) == if RoleOf(s) == role then Some(s) else Latest(o, role)
  {
    assert (o + [s])[..|o|] == o;
  }

  lemma {:induction false} TotalsAbsorbedAll(b: Book, es: seq<Entry>)
    ensures TotalsAbsorbed(b, es, AbsorbAll(b, es))
    decreases |es|
  {
    if es != [] {
      var init, e := es[..|es| - 1], es[|es| - 1];
      assert es == init + [e];
      TotalsAbsorbedAll(b, init);
      AbsorbAllSnoc(b, init, e);
      TotalsStep(b, init, e, AbsorbAll(b, init));
    }
  }

  lemma TotalsStep(b: Book, init: seq<Entry>, e: Entry, r: Book)
    requires TotalsAbsorbed(b, init, r)
    ensures TotalsAbsorbed(b, init + [e], Absorb(r, e))
  {
    OpensSnoc(init, e);
    AbsorbOthers(r, e);
    if e.open {
      TotalsStepOpen(b, init, e, r);
    } else {
      assert Opens(init) + [] == Opens(init);
      assert (b.closedPositions + Closeds(init)) + [e.saved] == b.closedPositions + (Closeds(init) + [e.saved]);
    }
  }

  lemma TotalsStepOpen(b: Book, init: seq<Entry>, e: Entry, r: Book)
    requires TotalsAbsorbed(b, init, r) && e.open
    ensures TotalsAbsorbed(b, init + [e], Absorb(r, e))
  {
    OpenStepLists(b, init, e, r);
    OpenStepQuantity(b, init, e, r);
    OpenStepTotals(b, init, e, r);
  }

  lemma OpenStepLists(b: Book, init: seq<Entry>, e: Entry, r: Book)
    requires e.open
    requires r.positions == b.positions + Opens(init) && r.closedPositions == b.closedPositions + Closeds(init)
    ensures Absorb(r, e).positions == b.positions + Opens(init + [e])
    ensures Absorb(r, e).closedPositions == b.closedPositions + Closeds(init + [e])
  {
    OpensSnoc(init, e);
    AbsorbOthers(r, e);
    assert (b.positions + Opens(init)) + [e.saved] == b.positions + (Opens(init) + [e.saved]);
    assert Closeds(init) + [] == Closeds(init);
  }

  lemma OpenStepQuantity(b: Book, init: seq<Entry>, e: Entry, r: Book)
    requires e.open && r.quantity == RunningMin(b.quantity, Opens(init))
    ensures Absorb(r, e).quantity == RunningMin(b.quantity, Opens(init + [e]))
  {
    OpensSnoc(init, e);
    AbsorbOthers(r, e);
    SavedSnoc(Opens(init), e.saved, b.quantity, LongPut);
  }

  lemma OpenStepTotals(b: Book, init: seq<Entry>, e: Entry, r: Book)
    requires e.open
    requires r.totalPremiumCollected == b.totalPremiumCollected + Collected(Opens(init))
    requires r.totalPremiumEarned == b.totalPremiumEarned + Earned(Opens(init))
    ensures Absorb(r, e).totalPremiumCollected == b.totalPremiumCollected + Collected(Opens(init + [e]))
    ensures Absorb(r, e).totalPremiumEarned == b.totalPremiumEarned + Earned(Opens(init + [e]))
  {
    OpensSnoc(init, e);
    AbsorbOthers(r, e);
    SavedSnoc(Opens(init), e.saved, b.quantity, LongPut);
  }

  lemma {:induction false} LegAbsorbedAll(b: Book, es: seq<Entry>, role: Role)
    ensures LegAbsorbed(b, es, AbsorbAll(b, es), role)
    decreases |es|
  {
    if es != [] {
      var init, e := es[..|es| - 1], es[|es| - 1];
      assert es == init + [e];
      LegAbsorbedAll(b, init, role);
      AbsorbAllSnoc(b, init, e);
      LegStep(b, init, e, role, AbsorbAll(b, init));
    }
  }

  lemma LegStep(b: Book, init: seq<Entry>, e: Entry, role: Role, r: Book)
    requires LegAbsorbed(b, init, r, role)
    ensures LegAbsorbed(b, init + [e], Absorb(r, e), role)
  {
    OpensSnoc(init, e);
    AbsorbLegs(r, e, role);
    if e.open {
      SavedSnoc(Opens(init), e.saved, b.quantity, role);
    } else {
      assert Opens(init) + [] == Opens(init);
    }
  }

  /**
   * Saving the records one by one leaves: the open records listed in order, the
   * closed ones listed apart, the lot quantity at the running minimum of the
   * open quantities, the totals moved by the open records only, and each leg
   * taken from the last open record of its role (kept from before when none).
   */
  lemma AbsorbAllFields(b: Book, es: seq<Entry>)
    ensures TotalsAbsorbed(b, es, AbsorbAll(b, es))
    ensures forall role :: LegAbsorbed(b, es, AbsorbAll(b, es), role)
  {
    TotalsAbsorbedAll(b, es);
    forall role ensures LegAbsorbed(b, es, AbsorbAll(b, es), role) {
      LegAbsorbedAll(b, es, role);
    }
  }

  /** Once every open quantity is at least `q`, taking minima leaves `q` alone. */
  lemma {:induction false} RunningMinStable(q: int, recs: seq<Saved>)
    requires forall k | 0 <= k < |recs| :: q <= recs[k].quantity
    ensures RunningMin(q, recs) == q
    decreases |recs|
  {
    if recs != [] {
      RunningMinStable(q, recs[..|recs| - 1]);
    }
  }

  /**
   * Reconciliation of one reply: positions and closed positions are the open
   * and closed records of the reply (a record with net quantity 0 is closed),
   * the premium totals are the signed sums over the open records only, the lot
   * quantity is the running minimum from its previous value, and each leg is
   * the last open record of its role or the leg held before.
   */
  lemma ProcessPositionsSummary(b: Book, es: seq<Entry>)
    ensures var r := AbsorbAll(Reset(b), es);
      && r.positions == Opens(es) && r.closedPositions == Closeds(es)
      && |r.positions| + |r.closedPositions| == |es|
      && r.totalPremiumCollected == Collected(r.positions)
      && r.totalPremiumEarned == Earned(r.positions)
      && r.quantity == RunningMin(b.quantity, r.positions)
  {
    TotalsAbsorbedAll(Reset(b), es);
    OpensClosedsCount(es);
    assert [] + Opens(es) == Opens(es) && [] + Closeds(es) == Closeds(es);
  }

  /** Reconciliation of one reply, leg by leg: the last open record of the role, or the leg held before. */
  lemma ProcessPositionsLegs(b: Book, es: seq<Entry>, role: Role)
    ensures var r := AbsorbAll(Reset(b), es);
      var l := Latest(Opens(es), role);
      && LegSymbol(r, role) == SymbolOr(l, LegSymbol(b, role))
      && LegPrice(r, role) == PriceOr(l, LegPrice(b, role))
      && LegEntry(r, role) == EntryOr(l, role, LegEntry(b, role))
  {
    LegAbsorbedAll(Reset(b), es, role);
    ResetKeepsLegs(b, role);
  }

  lemma ResetKeepsLegs(b: Book, role: Role)
    ensures LegSymbol(Reset(b), role) == LegSymbol(b, role)
    ensures LegPrice(Reset(b), role) == LegPrice(b, role)
    ensures LegEntry(Reset(b), role) == LegEntry(b, role)
  {
  }

  /** Entry by entry, `es` saves the records of `ps`: same symbol, open exactly when the net quantity is not zero. */
  predicate Follows(ps: seq<RawPosition>, es: seq<Entry>)
    decreases |ps|
  {
    |ps| == |es|
    && (ps != [] ==>
          Follows(ps[..|ps| - 1], es[..|es| - 1])
          && es[|es| - 1].saved.symbol == ps[|ps| - 1].tradingSymbol
          && (es[|es| - 1].open <==> ps[|ps| - 1].quantity != 0))
  }

  /**
   * The scan follows the reply record by record, as far as it got: entry `k`
   * saves record `k`, open exactly when its net quantity is not zero. It got
   * through the whole reply exactly when it completed.
   */
  lemma {:induction false} ScanFollowsReply(ps: seq<RawPosition>, chainOf: string -> Option<seq<ChainItem>>)
    ensures ScanFollows(ps, chainOf)
    decreases |ps|
  {
    if ps != [] {
      var init := ps[..|ps| - 1];
      ScanFollowsReply(init, chainOf);
      if !ScanOf(init, chainOf).complete {
        FollowsStopped(ps, chainOf);
      } else if SplitSymbol(ps[|ps| - 1].tradingSymbol).Parsed? {
        FollowsParsed(ps, chainOf);
      } else {
        FollowsFailed(ps, chainOf);
      }
    }
  }

  /** The scan's entries follow the reply as far as they go, and cover it exactly when the scan completed. */
  predicate ScanFollows(ps: seq<RawPosition>, chainOf: string -> Option<seq<ChainItem>>) {
    var r := ScanOf(ps, chainOf);
    Follows(ps[..|r.entries|], r.entries) && (r.complete <==> |r.entries| == |ps|)
  }

  lemma FollowsStopped(ps: seq<RawPosition>, chainOf: string -> Option<seq<ChainItem>>)
    requires ps != [] && ScanFollows(ps[..|ps| - 1], chainOf) && !ScanOf(ps[..|ps| - 1], chainOf).complete
    ensures ScanFollows(ps, chainOf)
  {
    ScanStopsStep(ps, |ps| - 1, chainOf);
    assert ps[..|ps| - 1 + 1] == ps;
    var init := ps[..|ps| - 1];
    var s := ScanOf(init, chainOf);
    assert init[..|s.entries|] == ps[..|s.entries|];
  }

  lemma FollowsParsed(ps: seq<RawPosition>, chainOf: string -> Option<seq<ChainItem>>)
    requires ps != [] && ScanFollows(ps[..|ps| - 1], chainOf) && ScanOf(ps[..|ps| - 1], chainOf).complete
    requires SplitSymbol(ps[|ps| - 1].tradingSymbol).Parsed?
    ensures ScanFollows(ps, chainOf)
  {
    var init := ps[..|ps| - 1];
    var s := ScanOf(init, chainOf);
    assert init[..|s.entries|] == init;
    ScanParsedStep(ps, chainOf);
    FollowsSnoc(ps, s.entries, ScanOf(ps, chainOf).entries);
  }

  lemma FollowsFailed(ps: seq<RawPosition>, chainOf: string -> Option<seq<ChainItem>>)
    requires ps != [] && ScanFollows(ps[..|ps| - 1], chainOf) && ScanOf(ps[..|ps| - 1], chainOf).complete
    requires !SplitSymbol(ps[|ps| - 1].tradingSymbol).Parsed?
    ensures ScanFollows(ps, chainOf)
  {
    var init := ps[..|ps| - 1];
    var s := ScanOf(init, chainOf);
    assert init[..|s.entries|] == ps[..|s.entries|];
    ScanFailStep(ps, chainOf);
  }

  lemma FollowsSnoc(ps: seq<RawPosition>, es: seq<Entry>, es': seq<Entry>)
    requires ps != [] && Follows(ps[..|ps| - 1], es)
    requires |es'| == |es| + 1 && es'[..|es|] == es
    requires es'[|es|].saved.symbol == ps[|ps| - 1].tradingSymbol
    requires es'[|es|].open <==> ps[|ps| - 1].quantity != 0
    ensures Follows(ps[..|es'|], es')
  {
    assert ps[..|es'|] == ps;
  }

  lemma ScanParsedStep(ps: seq<RawPosition>, chainOf: string -> Option<seq<ChainItem>>)
    requires ps != [] && ScanOf(ps[..|ps| - 1], chainOf).complete
    requires SplitSymbol(ps[|ps| - 1].tradingSymbol).Parsed?
    ensures var r := ScanOf(ps, chainOf);
      var s := ScanOf(ps[..|ps| - 1], chainOf);
      && r.complete && |r.entries| == |s.entries| + 1
      && r.entries[..|s.entries|] == s.entries
      && r.entries[|s.entries|].saved.symbol == ps[|ps| - 1].tradingSymbol
      && (r.entries[|s.entries|].open <==> ps[|ps| - 1].quantity != 0)
  {
  }

  lemma ScanFailStep(ps: seq<RawPosition>, chainOf: string -> Option<seq<ChainItem>>)
    requires ps != [] && ScanOf(ps[..|ps| - 1], chainOf).complete
    requires !SplitSymbol(ps[|ps| - 1].tradingSymbol).Parsed?
    ensures ScanOf(ps, chainOf) == ScanOf(ps[..|ps| - 1], chainOf).(complete := false)
  {
  }

  /** The scan after position `i` decodes: one more entry, saved with its mark from the chain held. */
  lemma ScanParsedAt(ps: seq<RawPosition>, i: nat, chainOf: string -> Option<seq<ChainItem>>)
    requires i < |ps| && ScanOf(ps[..i], chainOf).complete
    requires SplitSymbol(ps[i].tradingSymbol).Parsed?
    ensures var s := ScanOf(ps[..i], chainOf);
      var sym := SplitSymbol(ps[i].tradingSymbol).symbol;
      var chain := if |s.chain| == 0 then chainOf(sym.underlying).GetOr([]) else s.chain;
      ScanOf(ps[..i + 1], chainOf)
        == Scan(s.entries + [Entry(SaveOf(ps[i], Mark(chain, sym, ps[i].lastPrice)), ps[i].quantity != 0)], chain, true)
  {
    var t := ps[..i + 1];
    assert t[..|t| - 1] == ps[..i];
    assert t[|t| - 1] == ps[i];
    ScanParsedLast(t, chainOf);
  }

  /** The scan of a sequence whose last record decodes after a complete prefix. */
  lemma ScanParsedLast(t: seq<RawPosition>, chainOf: string -> Option<seq<ChainItem>>)
    requires t != [] && ScanOf(t[..|t| - 1], chainOf).complete
    requires SplitSymbol(t[|t| - 1].tradingSymbol).Parsed?
    ensures var s := ScanOf(t[..|t| - 1], chainOf);
      var p := t[|t| - 1];
      var sym := SplitSymbol(p.tradingSymbol).symbol;
      var chain := if |s.chain| == 0 then chainOf(sym.underlying).GetOr([]) else s.chain;
      ScanOf(t, chainOf) == Scan(s.entries + [Entry(SaveOf(p, Mark(chain, sym, p.lastPrice)), p.quantity != 0)], chain, true)
  {
  }

  /** The scan after position `i` fails to decode: the scan stops there. */
  lemma ScanFailAt(ps: seq<RawPosition>, i: nat, chainOf: string -> Option<seq<ChainItem>>)
    requires i < |ps| && ScanOf(ps[..i], chainOf).complete
    requires !SplitSymbol(ps[i].tradingSymbol).Parsed?
    ensures !ScanOf(ps[..i + 1], chainOf).complete
    ensures ScanOf(ps[..i + 1], chainOf).entries == ScanOf(ps[..i], chainOf).entries
  {
    assert ps[..i + 1][..i] == ps[..i];
  }

  lemma {:induction false} OpensClosedsCount(es: seq<Entry>)
    ensures |Opens(es)| + |Closeds(es)| == |es|
    decreases |es|
  {
    if es != [] {
      OpensClosedsCount(es[..|es| - 1]);
    }
  }

  /** A failed position reply clears the lists and totals and keeps everything else. */
  lemma ProcessPositionsFailedReply(b: Book, chainOf: string -> Option<seq<ChainItem>>)
    ensures AfterProcess(b, None, chainOf) == (Reset(b), true)
    ensures Reset(b).quantity == b.quantity && Reset(b).shortCallSymbol == b.shortCallSymbol
  {
  }

  /** Reconciling the same reply twice gives the same state as reconciling it once. */
  lemma ProcessPositionsIdempotent(b: Book, reply: Option<seq<RawPosition>>, chainOf: string -> Option<seq<ChainItem>>)
    ensures AfterProcess(AfterProcess(b, reply, chainOf).0, reply, chainOf) == AfterProcess(b, reply, chainOf)
  {
    if reply.Some? {
      var es := ScanOf(reply.value, chainOf).entries;
      var o := Opens(es);
      var r1 := AfterProcess(b, reply, chainOf).0;
      var r2 := AfterProcess(r1, reply, chainOf).0;
      AbsorbAllFields(Reset(b), es);
      AbsorbAllFields(Reset(r1), es);
      RunningMinStable(r1.quantity, o);
      forall role ensures LegSymbol(r2, role) == LegSymbol(r1, role) && LegPrice(r2, role) == LegPrice(r1, role)
                          && LegEntry(r2, role) == LegEntry(r1, role) {
        assert LegAbsorbed(Reset(b), es, r1, role);
        assert LegAbsorbed(Reset(r1), es, r2, role);
      }
      BookExt(r1, r2);
    }
  }

  /** A record that nets to zero is listed as closed and changes nothing else. */
  lemma ClosedRecordInert(b: Book, ps: seq<RawPosition>, p: RawPosition, chainOf: string -> Option<seq<ChainItem>>)
    requires ScanOf(ps, chainOf).complete && SplitSymbol(p.tradingSymbol).Parsed? && p.quantity == 0
    ensures var (r, _) := AfterProcess(b, Some(ps), chainOf);
      var (r', ok') := AfterProcess(b, Some(ps + [p]), chainOf);
      && ok' && |r'.closedPositions| == |r.closedPositions| + 1
      && r'.closedPositions[..|r.closedPositions|] == r.closedPositions
      && r' == r.(closedPositions := r'.closedPositions)
  {
    var qs := ps + [p];
    assert qs[..|qs| - 1] == ps;
    var e := ScanOf(qs, chainOf).entries[|ps|];
    assert ScanOf(qs, chainOf).entries == ScanOf(ps, chainOf).entries + [e];
    assert !e.open;
  }

  // ---------------------------------------------------------------------
  // Profit and loss
  // ---------------------------------------------------------------------

  /** Profit of one position: mark over entry for a bought leg, entry over mark for a sold one. */
  function PositionPnl(s: Saved): (v: real)
    ensures s.side == Buy ==> v == (s.lastPrice - s.transPrice) * s.quantity as real
    ensures s.side == Sell ==> v == (s.transPrice - s.lastPrice) * s.quantity as real
  {
    if s.side == Buy then (s.lastPrice - s.transPrice) * s.quantity as real
    else (s.transPrice - s.lastPrice) * s.quantity as real
  }

  function PnlOf(recs: seq<Saved>): real
    decreases |recs|
  {
    if recs == [] then 0.0 else PnlOf(recs[..|recs| - 1]) + PositionPnl(recs[|recs| - 1])
  }

  lemma {:induction false} PnlOfAppend(a: seq<Saved>, b: seq<Saved>)
    ensures PnlOf(a + b) == PnlOf(a) + PnlOf(b)
    decreases |b|
  {
    if b == [] {
      assert a + b == a;
    } else {
      var init := b[..|b| - 1];
      PnlOfAppend(a, init);
      assert (a + b)[..|a + b| - 1] == a + init;
    }
  }

  /**
   * With every leg at the same quantity `q`, the profit is `q` times the premium
   * collected less the premium it would now cost to unwind.
   */
  lemma {:induction false} PnlFromTotals(recs: seq<Saved>, q: int)
    requires forall k | 0 <= k < |recs| :: recs[k].quantity == q
    ensures PnlOf(recs) == q as real * (Collected(recs) - Earned(recs))
    decreases |recs|
  {
    if recs != [] {
      PnlFromTotals(recs[..|recs| - 1], q);
    }
  }

  // ---------------------------------------------------------------------
  // Stop loss
  // ---------------------------------------------------------------------

  /** A leg symbol decoded; `split_symbol` of None, or of a symbol it cannot split, raises. */
  function DecodeLeg(symbol: Option<string>): (r: Option<Symbol>)
    ensures r.Some? ==> symbol.Some? && SplitSymbol(symbol.value) == Parsed(r.value) && Valid(r.value.expiry)
    ensures r.None? ==> symbol.None? || !SplitSymbol(symbol.value).Parsed?
  {
    if symbol.None? then None
    else match SplitSymbol(symbol.value)
      case Parsed(sym) => Some(sym)
      case _ => None
  }

  predicate LegsDecode(b: Book) {
    DecodeLeg(b.longCallSymbol).Some? && DecodeLeg(b.shortCallSymbol).Some?
    && DecodeLeg(b.shortPutSymbol).Some? && DecodeLeg(b.longPutSymbol).Some?
  }

  /** The quote name of an underlying's index level. */
  function IndexQuoteName(underlying: string): (n: string)
    ensures underlying == "NIFTY" ==> n == "nifty 50"
    ensures underlying == "BANKNIFTY" ==> n == "nifty bank"
    ensures underlying != "NIFTY" && underlying != "BANKNIFTY" ==> n == underlying
  {
    if underlying == "NIFTY" then "nifty 50" else if underlying == "BANKNIFTY" then "nifty bank" else underlying
  }

  const VixQuoteName: string := "india vix"

  /** What `check_stop_loss` works out; `closed` is its return value. */
  datatype StopCheck = StopCheck(dte: int, slFactor: real, stopLossHit: bool, nearingStrike: bool, closed: bool)

  /** The four legs, decoded. */
  datatype Legs = Legs(longCall: Symbol, shortCall: Symbol, shortPut: Symbol, longPut: Symbol)

  predicate LegsValid(l: Legs) {
    Valid(l.longCall.expiry) && Valid(l.shortCall.expiry) && Valid(l.shortPut.expiry) && Valid(l.longPut.expiry)
  }

  /** The four `split_symbol` calls on the legs; None when any of them raises. */
  function DecodeLegs(b: Book): (r: Option<Legs>)
    ensures r.Some? <==> LegsDecode(b)
    ensures r.Some? ==> LegsValid(r.value)
    ensures r.Some? ==>
      && SplitSymbol(b.longCallSymbol.value) == Parsed(r.value.longCall)
      && SplitSymbol(b.shortCallSymbol.value) == Parsed(r.value.shortCall)
      && SplitSymbol(b.shortPutSymbol.value) == Parsed(r.value.shortPut)
      && SplitSymbol(b.longPutSymbol.value) == Parsed(r.value.longPut)
  {
    if LegsDecode(b) then
      Some(Legs(DecodeLeg(b.longCallSymbol).value, DecodeLeg(b.shortCallSymbol).value,
                DecodeLeg(b.shortPutSymbol).value, DecodeLeg(b.longPutSymbol).value))
    else None
  }

  /**
   * What `check_stop_loss` works out from decoded legs and the days to
   * expiry. The VIX defaults to 12 and the index level to the midpoint of the
   * short strikes when their quotes fail; the index quoted is the long put's
   * underlying (the last one split). The close orders are commented out in
   * the source, so the check returns False whatever it finds.
   */
  function StopCheckOf(l: Legs, collected: real, earned: real, dte: int, quote: string -> Option<real>): (r: StopCheck)
    ensures r.dte == dte
    ensures r.slFactor >= 1.0
    ensures r.slFactor == SlFactor(dte, quote(VixQuoteName).GetOr(DefaultVix))
    ensures r.stopLossHit <==> earned >= collected * r.slFactor
    ensures var spot := quote(IndexQuoteName(l.longPut.underlying)).GetOr(DefaultSpot(l.shortPut.strike, l.shortCall.strike));
      r.nearingStrike <==> spot <= (l.shortPut.strike + 200) as real || spot >= (l.shortCall.strike - 200) as real
    ensures !r.closed
  {
    var sl := SlFactor(dte, quote(VixQuoteName).GetOr(DefaultVix));
    var hit := StopLossHit(collected, earned, sl);
    var spot := quote(IndexQuoteName(l.longPut.underlying)).GetOr(DefaultSpot(l.shortPut.strike, l.shortCall.strike));
    var near := NearingStrike(spot, l.shortPut.strike, l.shortCall.strike);
    // As written: the close orders are commented out and the method returns False.
    StopCheck(dte, sl, hit, near, false)
  }

  /**
   * `check_stop_loss(today)`: raises when a leg does not decode, and never
   * reports a close. The days to expiry come from the LONG CALL symbol, as in
   * the source.
   */
  function StopLossCheck(b: Book, today: Date, quote: string -> Option<real>): (r: Outcome<StopCheck>)
    requires Valid(today)
    ensures r.Returned? <==> LegsDecode(b)
    ensures r.Returned? ==> !r.value.closed
    ensures r.Returned? ==>
      var l := DecodeLegs(b).value;
      r.value == StopCheckOf(l, b.totalPremiumCollected, b.totalPremiumEarned, DaysBetween(l.longCall.expiry, today), quote)
  {
    match DecodeLegs(b)
    case None => Raised
    case Some(l) =>
      Returned(StopCheckOf(l, b.totalPremiumCollected, b.totalPremiumEarned, DaysBetween(l.longCall.expiry, today), quote))
  }

  // ---------------------------------------------------------------------
  // Adjustments
  // ---------------------------------------------------------------------

  /** The orders `adjustments` sends, and whether it stopped with an exception. */
  datatype Adjustment = Adjustment(orders: seq<Order>, raised: bool)

  /** The symbol of the leg rolled to `newStrike`: the strike's decimal text replaced. */
  function RollTarget(symbol: string, strike: int, newStrike: int): (r: string)
    ensures strike == newStrike ==> r == symbol
  {
    ReplaceSelf(symbol, IntToString(strike));
    Replace(symbol, IntToString(strike), IntToString(newStrike))
  }

  /**
   * `adjustments` as written: after the BUY of the short leg it calls
   * `symbol.replace(strike, ...)` with the integer strike, which raises
   * `TypeError`, so the SELL of the rolled leg is never sent.
   */
  function AdjustmentsAsWritten(b: Book): (r: Adjustment)
    ensures r.raised <==> !LegsDecode(b) || AdjustmentRule(b.shortCallPrice, b.shortPutPrice) != NoRoll
    ensures |r.orders| <= 1
    ensures r.orders != [] ==> r.orders[0].side == Buy && r.orders[0].quantity == b.quantity
    ensures LegsDecode(b) ==> (r.orders == [] <==> AdjustmentRule(b.shortCallPrice, b.shortPutPrice) == NoRoll)
    ensures !LegsDecode(b) ==> r.orders == []
  {
    if !LegsDecode(b) then Adjustment([], true)
    else
      match AdjustmentRule(b.shortCallPrice, b.shortPutPrice)
      case RollCall => Adjustment([Order(b.shortCallSymbol.value, b.quantity, Buy)], true)
      case RollPut => Adjustment([Order(b.shortPutSymbol.value, b.quantity, Buy)], true)
      case NoRoll => Adjustment([], false)
  }

  /**
   * `adjustments` with the roll target built from the strike's text: when the
   * call has decayed to 55% of the put, buy back the short call and sell the
   * call 50 points lower; else when the put has decayed to 55% of the call, buy
   * back the short put and sell the put 50 points higher.
   */
  function Adjustments(b: Book): (r: Adjustment)
    ensures r.raised <==> !LegsDecode(b)
    ensures r.raised ==> r.orders == []
    ensures |r.orders| == 0 || |r.orders| == 2
    ensures b.shortCallPrice <= 0.0 || b.shortPutPrice <= 0.0 ==> r.orders == []
    ensures LegsDecode(b) && AdjustmentRule(b.shortCallPrice, b.shortPutPrice) == RollCall ==>
      var sc := DecodeLeg(b.shortCallSymbol).value;
      r.orders == [Order(b.shortCallSymbol.value, b.quantity, Buy),
                   Order(RollTarget(b.shortCallSymbol.value, sc.strike, sc.strike - 50), b.quantity, Sell)]
    ensures LegsDecode(b) && AdjustmentRule(b.shortCallPrice, b.shortPutPrice) == RollPut ==>
      var sp := DecodeLeg(b.shortPutSymbol).value;
      r.orders == [Order(b.shortPutSymbol.value, b.quantity, Buy),
                   Order(RollTarget(b.shortPutSymbol.value, sp.strike, sp.strike + 50), b.quantity, Sell)]
    ensures AdjustmentRule(b.shortCallPrice, b.shortPutPrice) == NoRoll ==> r.orders == []
  {
    if !LegsDecode(b) then Adjustment([], true)
    else
      var rule := AdjustmentRule(b.shortCallPrice, b.shortPutPrice);
      if rule == RollCall then
        var sc := DecodeLeg(b.shortCallSymbol).value;
        Adjustment([Order(b.shortCallSymbol.value, b.quantity, Buy),
                    Order(RollTarget(b.shortCallSymbol.value, sc.strike, sc.strike - 50), b.quantity, Sell)], false)
      else if rule == RollPut then
        var sp := DecodeLeg(b.shortPutSymbol).value;
        Adjustment([Order(b.shortPutSymbol.value, b.quantity, Buy),
                    Order(RollTarget(b.shortPutSymbol.value, sp.strike, sp.strike + 50), b.quantity, Sell)], false)
      else Adjustment([], false)
  }

  /** At most one leg is rolled, and only short legs are traded: one bought back, its roll sold. */
  lemma AdjustmentsTouchOneShortLeg(b: Book)
    ensures var r := Adjustments(b);
      r.orders != [] ==>
        && r.orders[0].side == Buy && r.orders[1].side == Sell
        && (r.orders[0].symbol == b.shortCallSymbol.value || r.orders[0].symbol == b.shortPutSymbol.value)
        && r.orders[0].quantity == b.quantity && r.orders[1].quantity == b.quantity
  {
  }

  /** As written, every roll stops after its BUY: the rolled leg is never sold. */
  lemma AdjustmentsAsWrittenStopsAfterBuy(b: Book)
    requires LegsDecode(b) && AdjustmentRule(b.shortCallPrice, b.shortPutPrice) != NoRoll
    ensures AdjustmentsAsWritten(b).raised
    ensures AdjustmentsAsWritten(b).orders == Adjustments(b).orders[..1]
    ensures |Adjustments(b).orders| == 2
  {
  }

  /**
   * Rolling a monthly leg: on `u yy MON strike type` with a strike of three or
   * more digits, replacing the strike's text gives a symbol that decodes to
   * the same underlying, expiry and option type at the new strike.
   */
  lemma RollTargetDecodes(u: string, yy: nat, m: int, strike: nat, newStrike: nat, t: string)
    requires |u| > 0 && AllUpper(u) && yy < 100 && 1 <= m <= 12 && (t == "CE" || t == "PE")
    requires strike >= 100 && newStrike >= 100
    ensures var s := u + Pad2(yy) + MonthName(m) + IntToString(strike) + t;
      var r := SplitSymbol(RollTarget(s, strike, newStrike));
      && SplitSymbol(s).Parsed? && r.Parsed?
      && r.symbol == SplitSymbol(s).symbol.(strike := newStrike)
  {
    var head := u + Pad2(yy) + MonthName(m);
    MonthlyHead(u, yy, m);
    NumeralLength(strike);
    ReplaceAfterHead(head, IntToString(strike), IntToString(newStrike), t);
    assert u + Pad2(yy) + MonthName(m) + IntToString(strike) + t == head + IntToString(strike) + t;
    assert u + Pad2(yy) + MonthName(m) + IntToString(newStrike) + t == head + IntToString(newStrike) + t;
    MonthlyLayout(u, yy, m, strike, t);
    MonthlyLayout(u, yy, m, newStrike, t);
    MonthlyExpiryUnique(u, yy, m, strike, newStrike, t);
  }

  /** The head of a monthly symbol: at least six characters, capitals everywhere but in the two year digits. */
  lemma MonthlyHead(u: string, yy: nat, m: int)
    requires |u| > 0 && AllUpper(u) && yy < 100 && 1 <= m <= 12
    ensures var head := u + Pad2(yy) + MonthName(m);
      && |head| >= 6
      && (forall k | 0 <= k < |head| - 5 :: IsUpper(head[k]))
      && (forall k | |head| - 3 <= k < |head| :: IsUpper(head[k]))
  {
    var head := u + Pad2(yy) + MonthName(m);
    MonthNameUpper(m);
    assert forall k | 0 <= k < |u| :: head[k] == u[k];
    assert forall k | |u| + 2 <= k < |head| :: head[k] == MonthName(m)[k - |u| - 2];
  }

  /** Replacing a numeral that first occurs right after an all-letter head, with only a short tail after it. */
  lemma ReplaceAfterHead(head: string, pat: string, rep: string, t: string)
    requires |pat| >= 3 && AllDigits(pat) && |head| >= 6 && |t| < |pat|
    requires forall k | 0 <= k < |head| - 5 :: IsUpper(head[k])
    requires forall k | |head| - 3 <= k < |head| :: IsUpper(head[k])
    ensures Replace(head + pat + t, pat, rep) == head + rep + t
  {
    var s := head + pat + t;
    HeadAndRest(head, pat, t);
    NoNumeralsInHead(s, head, pat);
    ReplaceSkipsPrefix(s, |head|, pat, rep);
    ReplaceWholePrefix(pat, t, rep);
    assert head + (rep + t) == head + rep + t;
  }

  lemma HeadAndRest(head: string, pat: string, t: string)
    ensures (head + pat + t)[..|head|] == head && (head + pat + t)[|head|..] == pat + t
  {
  }

  lemma NumeralLength(n: nat)
    requires n >= 100
    ensures |IntToString(n)| >= 3 && AllDigits(IntToString(n))
  {
    assert |NatToString(n / 10)| >= 2 by {
      assert |NatToString(n / 100)| >= 1;
    }
  }

  lemma NoNumeralsInHead(s: string, head: string, pat: string)
    requires |pat| >= 3 && AllDigits(pat) && |head| >= 6 && |head| + |pat| <= |s|
    requires s[..|head|] == head
    requires forall k | 0 <= k < |head| - 5 :: IsUpper(head[k])
    requires forall k | |head| - 3 <= k < |head| :: IsUpper(head[k])
    ensures NoMatchBefore(s, pat, |head|)
  {
    var n := |head|;
    forall i: nat | i < n ensures !MatchesAt(s, pat, i) {
      // A capital letter falls inside any window that starts in the head.
      var j := if i < n - 5 || i >= n - 3 then i else n - 3;
      assert IsUpper(head[j]) && !IsDigit(head[j]);
      if i + |pat| <= |s| {
        assert s[i..i + |pat|][j - i] == s[j] == head[j];
        assert IsDigit(pat[j - i]);
      }
    }
  }

  // ---------------------------------------------------------------------
  // The account object
  // ---------------------------------------------------------------------

  /** `self.quantity * trailing_profit_multiplier`: how far the lock trails the profit. */
  function TrailAmount(quantity: int, config: Config): real {
    quantity as real * config.trailingProfitMultiplier
  }

  /** The stages of one `run`, in the order they were entered. */
  datatype Stage = ProcessStage | StopLossStage | TrailStage | AdjustStage

  class HandleOptions {
    const user: string
    const config: Config
    var lockProfit: real
    var trailProfitHitCount: int
    var positions: seq<Saved>
    var closedPositions: seq<Saved>
    var quantity: int
    var longPutSymbol: Option<string>
    var shortPutSymbol: Option<string>
    var shortCallSymbol: Option<string>
    var longCallSymbol: Option<string>
    var shortPutEntry: real
    var shortCallEntry: real
    var longPutPrice: real
    var shortPutPrice: real
    var shortCallPrice: real
    var longCallPrice: real
    var totalPremiumCollected: real
    var totalPremiumEarned: real

    /** The reconciled state as a value. */
    function State(): Book
      reads this`positions, this`closedPositions, this`quantity
      reads this`longPutSymbol, this`shortPutSymbol, this`shortCallSymbol, this`longCallSymbol
      reads this`shortPutEntry, this`shortCallEntry
      reads this`longPutPrice, this`shortPutPrice, this`shortCallPrice, this`longCallPrice
      reads this`totalPremiumCollected, this`totalPremiumEarned
    {
      Book(positions, closedPositions, quantity,
        longPutSymbol, shortPutSymbol, shortCallSymbol, longCallSymbol,
        shortPutEntry, shortCallEntry, longPutPrice, shortPutPrice, shortCallPrice, longCallPrice,
        totalPremiumCollected, totalPremiumEarned)
    }

    /** A new account object: no profit locked, no hits counted, the initial book. */
    predicate Initial()
      reads this
    {
      lockProfit == 0.0 && trailProfitHitCount == 0 && State() == InitialBook
    }

    constructor (user: string, config: Config)
      ensures this.user == user && this.config == config
      ensures Initial()
    {
      this.user := user;
      this.config := config;
      lockProfit := 0.0;
      trailProfitHitCount := 0;
      positions := [];
      closedPositions := [];
      quantity := InitialQuantity;
      longPutSymbol := None;
      shortPutSymbol := None;
      shortCallSymbol := None;
      longCallSymbol := None;
      shortPutEntry := 0.0;
      shortCallEntry := 0.0;
      longPutPrice := 0.0;
      shortPutPrice := 0.0;
      shortCallPrice := 0.0;
      longCallPrice := 0.0;
      totalPremiumCollected := 0.0;
      totalPremiumEarned := 0.0;
    }

    /**
     * `process_positions`: returns false when a symbol could not be decoded,
     * leaving what was saved before it. The lot quantity and the leg fields
     * are not reset between calls, as in the source.
     */
    method ProcessPositions(reply: Option<seq<RawPosition>>, chainOf: string -> Option<seq<ChainItem>>)
      returns (completed: bool)
      modifies this`positions, this`closedPositions, this`quantity
      modifies this`longPutSymbol, this`shortPutSymbol, this`shortCallSymbol, this`longCallSymbol
      modifies this`shortPutEntry, this`shortCallEntry
      modifies this`longPutPrice, this`shortPutPrice, this`shortCallPrice, this`longCallPrice
      modifies this`totalPremiumCollected, this`totalPremiumEarned
      ensures (State(), completed) == AfterProcess(old(State()), reply, chainOf)
      ensures lockProfit == old(lockProfit) && trailProfitHitCount == old(trailProfitHitCount)
    {
      ResetBook();
      if reply.None? {
        return true;
      }
      completed := AbsorbReply(reply.value, chainOf);
      AfterProcessReply(old(State()), reply.value, chainOf);
    }

    /** The loop of `process_positions`: the records absorbed one by one until a symbol fails to decode. */
    method AbsorbReply(ps: seq<RawPosition>, chainOf: string -> Option<seq<ChainItem>>)
      returns (completed: bool)
      modifies this`positions, this`closedPositions, this`quantity
      modifies this`longPutSymbol, this`shortPutSymbol, this`shortCallSymbol, this`longCallSymbol
      modifies this`shortPutEntry, this`shortCallEntry
      modifies this`longPutPrice, this`shortPutPrice, this`shortCallPrice, this`longCallPrice
      modifies this`totalPremiumCollected, this`totalPremiumEarned
      ensures State() == AbsorbAll(old(State()), ScanOf(ps, chainOf).entries)
      ensures completed == ScanOf(ps, chainOf).complete
    {
      ghost var b0 := State();
      var chain: seq<ChainItem> := [];
      var i, ok := 0, true;
      while i < |ps| && ok
        invariant 0 <= i <= |ps|
        invariant ScanOf(ps[..i], chainOf).complete == ok
        invariant ok ==> chain == ScanOf(ps[..i], chainOf).chain
        invariant State() == AbsorbAll(b0, ScanOf(ps[..i], chainOf).entries)
      {
        ok, chain := AbsorbRecord(b0, ps, i, chain, chainOf);
        i := i + 1;
      }
      if ok {
        assert ps[..i] == ps;
      } else {
        ScanStops(ps, i, chainOf);
      }
      completed := ok;
    }

    /** The start of `process_positions`: both lists emptied and both totals zeroed. */
    method ResetBook()
      modifies this`positions, this`closedPositions, this`totalPremiumCollected, this`totalPremiumEarned
      ensures State() == Reset(old(State()))
    {
      positions := [];
      closedPositions := [];
      totalPremiumCollected := 0.0;
      totalPremiumEarned := 0.0;
    }

    /**
     * One pass of the loop of `process_positions`: decode the symbol (false
     * when it does not decode, before anything is saved), fetch the chain
     * when none is held, take the mark from it and save the record.
     */
    method AbsorbRecord(ghost b0: Book, ps: seq<RawPosition>, i: nat, chain: seq<ChainItem>,
                        chainOf: string -> Option<seq<ChainItem>>)
      returns (ok: bool, chain': seq<ChainItem>)
      requires i < |ps| && ScanOf(ps[..i], chainOf).complete && chain == ScanOf(ps[..i], chainOf).chain
      requires State() == AbsorbAll(b0, ScanOf(ps[..i], chainOf).entries)
      modifies this`positions, this`closedPositions, this`quantity
      modifies this`longPutSymbol, this`shortPutSymbol, this`shortCallSymbol, this`longCallSymbol
      modifies this`shortPutEntry, this`shortCallEntry
      modifies this`longPutPrice, this`shortPutPrice, this`shortCallPrice, this`longCallPrice
      modifies this`totalPremiumCollected, this`totalPremiumEarned
      ensures ok == ScanOf(ps[..i + 1], chainOf).complete
      ensures ok ==> chain' == ScanOf(ps[..i + 1], chainOf).chain
      ensures State() == AbsorbAll(b0, ScanOf(ps[..i + 1], chainOf).entries)
    {
      var p := ps[i];
      var decoded := SplitSymbol(p.tradingSymbol);
      if !decoded.Parsed? {
        ScanFailAt(ps, i, chainOf);
        return false, chain;
      }
      var sym := decoded.symbol;
      chain' := chain;
      if |chain| == 0 {
        chain' := chainOf(sym.underlying).GetOr([]);
      }
      var mark := MarkOf(chain', sym, p.lastPrice);
      var s := SaveOf(p, mark);
      ScanParsedAt(ps, i, chainOf);
      AbsorbAllSnoc(b0, ScanOf(ps[..i], chainOf).entries, Entry(s, p.quantity != 0));
      SaveRecord(s, p.quantity != 0);
      ok := true;
    }

    /** The inner loop of `process_positions`: the first chain row that quotes the option gives the mark. */
    static method MarkOf(chain: seq<ChainItem>, sym: Symbol, fallback: real) returns (mark: real)
      requires Valid(sym.expiry)
      ensures mark == Mark(chain, sym, fallback)
    {
      mark := fallback;
      var j := 0;
      while j < |chain|
        invariant 0 <= j <= |chain|
        invariant NoQuoteBefore(chain, sym, j)
        invariant mark == fallback
      {
        if Quotes(chain[j], sym) {
          mark := ChainQuote(chain[j], sym.optionType).value;
          return;
        }
        j := j + 1;
      }
    }

    /** Saving one record into the fields, as the body of the loop does. */
    method SaveRecord(s: Saved, open: bool)
      modifies this`positions, this`closedPositions, this`quantity
      modifies this`longPutSymbol, this`shortPutSymbol, this`shortCallSymbol, this`longCallSymbol
      modifies this`shortPutEntry, this`shortCallEntry
      modifies this`longPutPrice, this`shortPutPrice, this`shortCallPrice, this`longCallPrice
      modifies this`totalPremiumCollected, this`totalPremiumEarned
      ensures State() == Absorb(old(State()), Entry(s, open))
    {
      if !open {
        closedPositions := closedPositions + [s];
        return;
      }
      positions := positions + [s];
      quantity := if s.quantity < quantity then s.quantity else quantity;
      if s.side == Buy {
        TakeBoughtLeg(s);
      } else {
        TakeSoldLeg(s);
      }
    }

    /** A bought record: both totals fall, and it becomes the long put or the long call. */
    method TakeBoughtLeg(s: Saved)
      requires s.side == Buy
      modifies this`totalPremiumCollected, this`totalPremiumEarned
      modifies this`longPutSymbol, this`longPutPrice, this`longCallSymbol, this`longCallPrice
      ensures State() == TakeLeg(old(State()), s)
    {
      if LastTwo(s.symbol) == "PE" {
        TakeLongPut(s);
      } else {
        TakeLongCall(s);
      }
    }

    /** A sold record: both totals rise, and it becomes the short put or the short call with its entry price. */
    method TakeSoldLeg(s: Saved)
      requires s.side == Sell
      modifies this`totalPremiumCollected, this`totalPremiumEarned
      modifies this`shortPutSymbol, this`shortPutEntry, this`shortPutPrice
      modifies this`shortCallSymbol, this`shortCallEntry, this`shortCallPrice
      ensures State() == TakeLeg(old(State()), s)
    {
      if LastTwo(s.symbol) == "PE" {
        TakeShortPut(s);
      } else {
        TakeShortCall(s);
      }
    }

    method TakeLongPut(s: Saved)
      requires RoleOf(s) == LongPut
      modifies this`totalPremiumCollected, this`totalPremiumEarned, this`longPutSymbol, this`longPutPrice
      ensures State() == TakeLeg(old(State()), s)
    {
      totalPremiumCollected := totalPremiumCollected - s.transPrice;
      totalPremiumEarned := totalPremiumEarned - s.lastPrice;
      longPutSymbol := Some(s.symbol);
      longPutPrice := s.lastPrice;
    }

    method TakeLongCall(s: Saved)
      requires RoleOf(s) == LongCall
      modifies this`totalPremiumCollected, this`totalPremiumEarned, this`longCallSymbol, this`longCallPrice
      ensures State() == TakeLeg(old(State()), s)
    {
      totalPremiumCollected := totalPremiumCollected - s.transPrice;
      totalPremiumEarned := totalPremiumEarned - s.lastPrice;
      longCallSymbol := Some(s.symbol);
      longCallPrice := s.lastPrice;
    }

    method TakeShortPut(s: Saved)
      requires RoleOf(s) == ShortPut
      modifies this`totalPremiumCollected, this`totalPremiumEarned
      modifies this`shortPutSymbol, this`shortPutEntry, this`shortPutPrice
      ensures State() == TakeLeg(old(State()), s)
    {
      totalPremiumCollected := totalPremiumCollected + s.transPrice;
      totalPremiumEarned := totalPremiumEarned + s.lastPrice;
      shortPutSymbol := Some(s.symbol);
      shortPutEntry := s.transPrice;
      shortPutPrice := s.lastPrice;
    }

    method TakeShortCall(s: Saved)
      requires RoleOf(s) == ShortCall
      modifies this`totalPremiumCollected, this`totalPremiumEarned
      modifies this`shortCallSymbol, this`shortCallEntry, this`shortCallPrice
      ensures State() == TakeLeg(old(State()), s)
    {
      totalPremiumCollected := totalPremiumCollected + s.transPrice;
      totalPremiumEarned := totalPremiumEarned + s.lastPrice;
      shortCallSymbol := Some(s.symbol);
      shortCallEntry := s.transPrice;
      shortCallPrice := s.lastPrice;
    }

    /** `get_pnl`: the profit over the open positions (the source's rounding to paise is not modelled). */
    method GetPnl() returns (pnl: real)
      ensures pnl == PnlOf(positions)
    {
      pnl := 0.0;
      var i := 0;
      while i < |positions|
        invariant 0 <= i <= |positions|
        invariant pnl == PnlOf(positions[..i])
      {
        var s := positions[i];
        assert positions[..i + 1][..i] == positions[..i];
        if s.side == Buy {
          pnl := pnl + (s.lastPrice - s.transPrice) * s.quantity as real;
        } else {
          pnl := pnl + (s.transPrice - s.lastPrice) * s.quantity as real;
        }
        i := i + 1;
      }
      assert positions[..i] == positions;
    }

    /**
     * `trail_profit`: one ratchet step of the profit lock. The close orders
     * are commented out in the source, so it returns False in every case; it
     * raises when the counter passes the threshold and a leg does not decode.
     */
    method TrailProfit() returns (r: Outcome<bool>)
      modifies this`lockProfit, this`trailProfitHitCount
      ensures var t := old(Trail(lockProfit, trailProfitHitCount, PnlOf(positions),
                                 TrailAmount(quantity, config),
                                 config.trailProfitThreshold, LegsDecode(State())));
        && lockProfit == t.lockProfit && trailProfitHitCount == t.hitCount
        && (r == Raised <==> t.raised) && (r.Returned? ==> r.value == false)
      ensures State() == old(State())
    {
      var pnl := GetPnl();
      var trail := TrailAmount(quantity, config);
      // The legs are only decoded on the close path; decoding has no effect, so it is evaluated here.
      var decodes := LegsDecode(State());
      if pnl <= lockProfit && lockProfit > 0.0 {
        trailProfitHitCount := trailProfitHitCount + 1;
        if trailProfitHitCount > config.trailProfitThreshold {
          if !decodes {
            return Raised;
          }
          // As written: the close orders are commented out.
        }
      }
      if pnl >= lockProfit + trail + 500.0 {
        lockProfit := pnl - trail;
      }
      // As written: the method returns False even after deciding to close.
      return Returned(false);
    }

    /**
     * `run` for one cycle: nothing unless the account is on the roster; then
     * reconcile, and with exactly four open positions check the stop loss,
     * trail the profit and adjust. Since the first two stages always return
     * False, the cycle reaches the adjustments whenever nothing raises. An
     * exception ends the cycle, keeping the state reached so far; `raised`
     * reports it.
     */
    method Run(roster: seq<string>, reply: Option<seq<RawPosition>>,
               chainOf: string -> Option<seq<ChainItem>>, quote: string -> Option<real>, today: Date)
      returns (stages: seq<Stage>, orders: seq<Order>, raised: bool)
      requires Valid(today)
      modifies this
      ensures user !in roster ==> stages == [] && orders == [] && !raised && State() == old(State())
      ensures user !in roster ==> lockProfit == old(lockProfit) && trailProfitHitCount == old(trailProfitHitCount)
      ensures user in roster ==> |stages| >= 1 && stages[0] == ProcessStage
      ensures user in roster ==>
        var (b, ok) := AfterProcess(old(State()), reply, chainOf);
        && State().positions == b.positions
        && (stages == [ProcessStage, StopLossStage, TrailStage, AdjustStage] <==>
              ok && |b.positions| == 4 && LegsDecode(b))
        && (stages == [ProcessStage] <==> !ok || |b.positions| != 4)
      ensures orders != [] ==> stages == [ProcessStage, StopLossStage, TrailStage, AdjustStage]
      ensures stages == [ProcessStage, StopLossStage, TrailStage, AdjustStage] ==>
        orders == Adjustments(State()).orders && !raised
      ensures lockProfit >= old(lockProfit) && trailProfitHitCount >= old(trailProfitHitCount)
      ensures user in roster ==> State() == AfterProcess(old(State()), reply, chainOf).0
      ensures TrailStage in stages ==>
        var b := AfterProcess(old(State()), reply, chainOf).0;
        var t := Trail(old(lockProfit), old(trailProfitHitCount), PnlOf(b.positions),
                       TrailAmount(b.quantity, config), config.trailProfitThreshold, LegsDecode(b));
        && lockProfit == t.lockProfit && trailProfitHitCount == t.hitCount
        && (AdjustStage in stages <==> !t.raised)
      ensures TrailStage !in stages ==> lockProfit == old(lockProfit) && trailProfitHitCount == old(trailProfitHitCount)
      ensures user in roster ==>
        var (b, ok) := AfterProcess(old(State()), reply, chainOf);
        && (raised <==> !ok || (|b.positions| == 4 && !LegsDecode(b)))
        && (ok && |b.positions| == 4 && !LegsDecode(b) ==> stages == [ProcessStage, StopLossStage])
    {
      stages, orders, raised := [], [], false;
      if user !in roster {
        return;
      }
      var ok := ProcessPositions(reply, chainOf);
      ghost var b := State();
      assert (b, ok) == AfterProcess(old(State()), reply, chainOf);
      stages := [ProcessStage];
      if !ok {
        raised := true;
        return;
      }
      if |positions| == 4 {
        stages := [ProcessStage, StopLossStage];
        var check := StopLossCheck(State(), today, quote);
        if check.Raised? {
          raised := true;
          return;
        }
        // As written: check.value.closed is always false, so the cycle goes on.
        stages := [ProcessStage, StopLossStage, TrailStage];
        ghost var lock0, count0 := lockProfit, trailProfitHitCount;
        var trailed := TrailProfit();
        assert State() == b;
        TrailMonotone(lock0, count0, PnlOf(positions), TrailAmount(quantity, config),
                      config.trailProfitThreshold, LegsDecode(b));
        if trailed.Raised? {
          raised := true;
          return;
        }
        stages := [ProcessStage, StopLossStage, TrailStage, AdjustStage];
        var adjustment := Adjustments(State());
        orders := adjustment.orders;
        raised := adjustment.raised;
      }
    }
  }
}
