/** treasuryforge/types.py, wallet.py and executor.py: intents, fills, the clamping
    wallet, and the simulated executor. */
module Trading {
  import opened Sums
  import opened Wrappers

  /** Overdrafts up to this much are taken for rounding and clamped to zero. */
  const TINY: real := 0.000000001

  datatype Side = BUY | SELL

  datatype Tick = Tick(symbol: string, price: real, ts: int)

  datatype Intent = Intent(symbol: string, side: Side, baseAmount: real, quoteAmount: Option<real>) {
    /** Quote value at a price. */
    function Notional(price: real): real {
      match quoteAmount
      case Some(q) => Abs(q)
      case None => Times(Abs(baseAmount), price)
    }
  }

  datatype Fill = Fill(symbol: string, side: Side, baseAmount: real, price: real, fee: real, ts: int, feeInBase: bool) {
    function Gross(): real {
      Times(baseAmount, price)
    }

    function QuoteDelta(): real {
      var quoteFee := if feeInBase then 0.0 else fee;
      if side == BUY then -(Gross() + quoteFee) else Gross() - quoteFee
    }

    function BaseDelta(): real {
      var baseFee := if feeInBase then fee else 0.0;
      if side == BUY then baseAmount - baseFee else -baseAmount
    }
  }

  // ---- wallet.py -------------------------------------------------------------------------

  datatype Wallet = Wallet(quote: real, positions: map<string, real>) {
    function Base(symbol: string): real {
      if symbol in positions then positions[symbol] else 0.0
    }

    /** Equity when only one symbol has a price; without a price a position counts 0. */
    function EquityAt(symbol: string, price: real): real {
      quote + Times(Base(symbol), price)
    }

    predicate Solvent() {
      quote >= 0.0 && forall s :: s in positions ==> positions[s] >= 0.0
    }
  }

  /** The wallet after a fill, unless it would overdraw. */
  function Applied(w: Wallet, f: Fill): Option<Wallet> {
    var quote, base := w.quote + f.QuoteDelta(), w.Base(f.symbol) + f.BaseDelta();
    if quote < -TINY || base < -TINY then None
    else Some(Wallet(Max(quote, 0.0), w.positions[f.symbol := Max(base, 0.0)]))
  }

  datatype Snapshot = Snapshot(entries: map<string, real>)

  const QUOTE_KEY := "quote"

  class SimWallet {
    var quote: real
    var positions: map<string, real>

    constructor (w: Wallet)
      ensures State() == w
    {
      quote, positions := w.quote, w.positions;
    }

    function State(): Wallet
      reads this
    {
      Wallet(quote, positions)
    }

    method BaseBalance(symbol: string) returns (amount: real)
      ensures amount == State().Base(symbol)
    {
      amount := if symbol in positions then positions[symbol] else 0.0;
    }

    /** Quote plus every position at its price, 0 when it has none. */
    method Equity(prices: map<string, real>) returns (total: real)
      ensures total == quote + Marked(positions, prices, positions.Keys)
      ensures forall s, p :: prices == map[s := p] ==> total == State().EquityAt(s, p)
      ensures prices == map[] ==> total == quote
    {
      hide Times;
      total := quote;
      var left := positions.Keys;
      while left != {}
        invariant left <= positions.Keys
        invariant total + Marked(positions, prices, left) == quote + Marked(positions, prices, positions.Keys)
        decreases left
      {
        var symbol :| symbol in left;
        MarkedWithout(positions, prices, left, symbol);
        total := total + Times(positions[symbol], PriceOf(prices, symbol));
        left := left - {symbol};
      }
      OnePriceMarks(positions, prices);
    }

    /** Balances move by the fill's deltas; a real overdraft is refused. */
    method ApplyFill(f: Fill) returns (ok: bool)
      modifies this
      ensures ok <==> Applied(old(State()), f).Some?
      ensures State() == if ok then Applied(old(State()), f).value else old(State())
    {
      var newQuote := quote + f.QuoteDelta();
      var newBase := State().Base(f.symbol) + f.BaseDelta();
      if newQuote < -TINY {
        return false;
      }
      if newBase < -TINY {
        return false;
      }
      quote := Max(newQuote, 0.0);
      positions := positions[f.symbol := Max(newBase, 0.0)];
      return true;
    }

    /** One dictionary for the quote balance and all positions; a position wins a clash. */
    method Saved() returns (s: Snapshot)
      ensures s == SnapshotOf(State())
    {
      s := Snapshot(map[QUOTE_KEY := quote] + positions);
    }
  }

  function SnapshotOf(w: Wallet): Snapshot {
    Snapshot(map[QUOTE_KEY := w.quote] + w.positions)
  }

  function FromSnapshot(s: Snapshot): Wallet
    requires QUOTE_KEY in s.entries
  {
    Wallet(s.entries[QUOTE_KEY], map k | k in s.entries && k != QUOTE_KEY :: s.entries[k])
  }

  /** A wallet comes back from its snapshot exactly when no symbol is called "quote". */
  lemma WalletRoundTrip(w: Wallet)
    ensures FromSnapshot(SnapshotOf(w)) == w <==> "quote" !in w.positions
    // a symbol of that name takes the place of the quote balance
    ensures "quote" in w.positions ==>
              FromSnapshot(SnapshotOf(w)) == Wallet(w.positions["quote"], w.positions - {"quote"})
  {
    var back := FromSnapshot(SnapshotOf(w));
    assert QUOTE_KEY !in back.positions;
    if QUOTE_KEY !in w.positions {
      assert back.positions == w.positions;
    } else {
      assert back.positions == w.positions - {"quote"};
    }
  }

  function PriceOf(prices: map<string, real>, symbol: string): real {
    if symbol in prices then prices[symbol] else 0.0
  }

  /** The value of these positions, summed in no particular order. */
  ghost function Marked(positions: map<string, real>, prices: map<string, real>, keys: set<string>): real
    requires keys <= positions.Keys
  {
    if keys == {} then 0.0
    else
      var k :| k in keys;
      Times(positions[k], PriceOf(prices, k)) + Marked(positions, prices, keys - {k})
  }

  /** Any one of them may be taken out first. */
  lemma {:induction false} MarkedWithout(positions: map<string, real>, prices: map<string, real>, keys: set<string>,
                                         k: string)
    requires keys <= positions.Keys && k in keys
    ensures Marked(positions, prices, keys)
         == Times(positions[k], PriceOf(prices, k)) + Marked(positions, prices, keys - {k})
    decreases |keys|
  {
    hide Times, PriceOf;
    var j :| j in keys && Marked(positions, prices, keys)
                          == Times(positions[j], PriceOf(prices, j)) + Marked(positions, prices, keys - {j});
    if j != k {
      MarkedWithout(positions, prices, keys - {j}, k);
      MarkedWithout(positions, prices, keys - {k}, j);
      assert keys - {j} - {k} == keys - {k} - {j};
    }
  }

  /** With at most one price only its own position counts. */
  lemma {:induction false} MarkedByOne(positions: map<string, real>, prices: map<string, real>, keys: set<string>,
                                       s: string)
    requires keys <= positions.Keys && prices.Keys <= {s}
    ensures Marked(positions, prices, keys) == if s in keys then Times(positions[s], PriceOf(prices, s)) else 0.0
    decreases |keys|
  {
    hide Times;
    if keys != {} {
      var k :| k in keys;
      MarkedWithout(positions, prices, keys, k);
      MarkedByOne(positions, prices, keys - {k}, s);
      if k != s {
        assert k !in prices.Keys;
        NothingTimes(positions[k]);
      }
    }
  }

  lemma OnePriceMarks(positions: map<string, real>, prices: map<string, real>)
    ensures forall s, p :: prices == map[s := p] ==>
              Marked(positions, prices, positions.Keys) == if s in positions then Times(positions[s], p)
                  else Times(0.0, p)
    ensures prices == map[] ==> Marked(positions, prices, positions.Keys) == 0.0
  {
    hide Times, Marked;
    NothingHeld();
    forall s, p | prices == map[s := p]
      ensures Marked(positions, prices, positions.Keys) == if s in positions then Times(positions[s], p)
          else Times(0.0, p)
    {
      assert prices.Keys == {s} && PriceOf(prices, s) == p;
      MarkedByOne(positions, prices, positions.Keys, s);
    }
    if prices == map[] {
      assert prices.Keys == {};
      MarkedByOne(positions, prices, positions.Keys, "");
      if "" in positions {
        NothingTimes(positions[""]);
      }
    }
  }

  lemma NothingTimes(x: real)
    ensures Times(x, 0.0) == 0.0
  {
  }

  lemma NothingHeld()
    ensures forall p :: Times(0.0, p) == 0.0
  {
  }

  // ---- what a fill does to the balances ------------------------------------------------------

  /** No balance goes below zero; each moves by the fill's delta and at most a clamp of
      1e-9 upwards; and no other position moves. */
  lemma FillKeepsSolvency(w: Wallet, f: Fill)
    requires w.Solvent() && Applied(w, f).Some?
    ensures var v := Applied(w, f).value;
      && v.Solvent()
      && 0.0 <= v.quote - (w.quote + f.QuoteDelta()) <= 0.000000001
      && 0.0 <= v.Base(f.symbol) - (w.Base(f.symbol) + f.BaseDelta()) <= 0.000000001
      && forall s :: s != f.symbol ==> v.Base(s) == w.Base(s)
  {
  }

  /** What a fill moves: its amount at its price, and the fee in the currency it is charged in.  A
      buyer charged in base receives that much less; a seller is charged in quote or not at all. */
  lemma FillMoves(f: Fill)
    ensures f.side == BUY ==> f.QuoteDelta() == -(f.baseAmount * f.price) - (if f.feeInBase then 0.0 else f.fee)
    ensures f.side == BUY ==> f.BaseDelta() == f.baseAmount - (if f.feeInBase then f.fee else 0.0)
    ensures f.side == SELL ==> f.QuoteDelta() == f.baseAmount * f.price - (if f.feeInBase then 0.0 else f.fee)
    ensures f.side == SELL ==> f.BaseDelta() == -f.baseAmount
  {
  }

  /** A fill is refused exactly when it would leave a balance below -1e-9; otherwise both balances
      take it, and one that ends below zero is set to zero.  No other symbol moves. */
  lemma RefusedIff(w: Wallet, f: Fill)
    ensures var quote, base := w.quote + f.QuoteDelta(), w.Base(f.symbol) + f.BaseDelta();
      && (Applied(w, f).None? <==> quote < -0.000000001 || base < -0.000000001)
      && (Applied(w, f).Some? ==>
            var v := Applied(w, f).value;
            && v.quote == (if quote < 0.0 then 0.0 else quote)
            && v.Base(f.symbol) == (if base < 0.0 then 0.0 else base)
            && forall s :: s != f.symbol ==> v.Base(s) == w.Base(s))
  {
    hide Fill.QuoteDelta, Fill.BaseDelta;
  }

  // ---- executor.py ----------------------------------------------------------------------------

  datatype Executor = Executor(feeRate: real, slippageBps: real)

  /** round(x, 6), known only by what the results need. */
  ghost predicate MonotoneRounding(round6: real -> real) {
    (forall x, y :: x <= y ==> round6(x) <= round6(y)) && round6(0.0) == 0.0
  }

  /** Slippage is always adverse: a bit more to buy, a bit less to sell. */
  function AdversePrice(ex: Executor, side: Side, price: real): real {
    var slip := ex.slippageBps / 10000.0;
    Times(price, if side == BUY then 1.0 + slip else 1.0 - slip)
  }

  function FillFor(ex: Executor, round6: real -> real, i: Intent, t: Tick): Fill {
    var price := AdversePrice(ex, i.side, t.price);
    Fill(i.symbol, i.side, i.baseAmount, round6(price), round6(Times(Times(i.baseAmount, price), ex.feeRate)), t.ts,
         false)
  }

  /** None is InsufficientFunds: the price moved between decision and fill. */
  method Execute(ex: Executor, round6: real -> real, i: Intent, t: Tick, wallet: SimWallet) returns (fill: Option<Fill>)
    modifies wallet
    ensures var f := FillFor(ex, round6, i, t);
      fill == if Applied(old(wallet.State()), f).Some? then Some(f) else None
    ensures wallet.State() == if fill.Some? then Applied(old(wallet.State()), fill.value).value else old(wallet.State())
  {
    var slip := ex.slippageBps / 10000.0;
    var fillPrice := Times(t.price, if i.side == BUY then 1.0 + slip else 1.0 - slip);
    var fee := Times(Times(i.baseAmount, fillPrice), ex.feeRate);
    var f := Fill(i.symbol, i.side, i.baseAmount, round6(fillPrice), round6(fee), t.ts, false);
    var ok := wallet.ApplyFill(f);
    fill := if ok then Some(f) else None;
  }

  /** The fill of an intent: its own symbol, side and amount at the tick's time, at the tick's price
      with the slippage against it, and the fee rate on the unrounded value, both rounded. */
  lemma FillIs(ex: Executor, round6: real -> real, i: Intent, t: Tick)
    ensures var f := FillFor(ex, round6, i, t);
      var part := ex.slippageBps / 10000.0;
      var price := if i.side == BUY then t.price * (1.0 + part) else t.price * (1.0 - part);
      && f.symbol == i.symbol && f.side == i.side && f.baseAmount == i.baseAmount && f.ts == t.ts && !f.feeInBase
      && f.price == round6(price) && f.fee == round6(Times(Times(i.baseAmount, price), ex.feeRate))
  {
    hide AdversePrice, Times;
    AdverseIs(ex, i.side, t.price);
  }

  lemma AdverseIs(ex: Executor, side: Side, price: real)
    ensures AdversePrice(ex, side, price)
         == if side == BUY then price * (1.0 + ex.slippageBps / 10000.0) else price * (1.0 - ex.slippageBps / 10000.0)
  {
  }

  /** An intent, a tick and an executor the results are stated for. */
  ghost predicate Ordinary(ex: Executor, round6: real -> real, i: Intent, t: Tick) {
    && MonotoneRounding(round6) && ex.feeRate >= 0.0 && 0.0 <= ex.slippageBps <= 10000.0
    && i.baseAmount > 0.0 && t.price > 0.0 && round6(t.price) == t.price
  }

  lemma FillIsAdverse(ex: Executor, round6: real -> real, i: Intent, t: Tick)
    requires Ordinary(ex, round6, i, t)
    ensures var f := FillFor(ex, round6, i, t);
      && f.fee >= 0.0 && f.price >= 0.0 && f.Gross() >= 0.0
      && (if i.side == BUY then f.price >= t.price else f.price <= t.price)
  {
    var slip := ex.slippageBps / 10000.0;
    assert 0.0 <= slip <= 1.0;
    var price := AdversePrice(ex, i.side, t.price);
    AdverseBounds(t.price, slip);
    ProductNonneg(i.baseAmount, price);
    ProductNonneg(Times(i.baseAmount, price), ex.feeRate);
    assert round6(0.0) <= round6(price);
    ProductNonneg(i.baseAmount, round6(price));
  }

  lemma AdverseBounds(price: real, slip: real)
    requires price > 0.0 && 0.0 <= slip <= 1.0
    ensures Times(price, 1.0 + slip) >= price
    ensures 0.0 <= Times(price, 1.0 - slip) <= price
  {
    ProductNonneg(price, slip);
    assert price * (1.0 + slip) == price + price * slip;
    assert price * (1.0 - slip) == price - price * slip;
    ProductNonneg(price, 1.0 - slip);
  }

  /** A fill never raises equity marked at the price it was filled at, up to the clamp. */
  lemma FillLowersEquity(ex: Executor, round6: real -> real, i: Intent, t: Tick, w: Wallet)
    requires Ordinary(ex, round6, i, t) && w.Solvent() && i.symbol == t.symbol
    requires Applied(w, FillFor(ex, round6, i, t)).Some?
    ensures Applied(w, FillFor(ex, round6, i, t)).value.EquityAt(t.symbol, t.price)
         <= w.EquityAt(t.symbol, t.price) + TINY + Times(TINY, t.price)
  {
    var f := FillFor(ex, round6, i, t);
    var v := Applied(w, f).value;
    FillIsAdverse(ex, round6, i, t);
    FillKeepsSolvency(w, f);
    // the position moves by the base amount and a clamp; the cash by amount times fill price
    var clamp := v.Base(t.symbol) - (w.Base(t.symbol) + f.BaseDelta());
    TimesSum(w.Base(t.symbol), f.BaseDelta(), clamp, t.price);
    TimesMonotone(t.price, clamp, TINY);
    if i.side == BUY {
      TimesMonotone(f.baseAmount, t.price, f.price);
    } else {
      TimesMonotone(f.baseAmount, f.price, t.price);
      TimesMinus(f.baseAmount, t.price);
    }
  }

  /** What a fill costs, exactly: slippage in basis points of the value at the tick, plus the
      fee rate on the value at the fill price, less whatever the wallet clamped. */
  lemma FillCost(ex: Executor, i: Intent, t: Tick, w: Wallet)
    requires i.symbol == t.symbol && Applied(w, FillFor(ex, (x: real) => x, i, t)).Some?
    ensures var f := FillFor(ex, (x: real) => x, i, t); var v := Applied(w, f).value;
      var clamp := v.quote - (w.quote + f.QuoteDelta())
          + Times(v.Base(t.symbol) - (w.Base(t.symbol) + f.BaseDelta()), t.price);
      v.EquityAt(t.symbol, t.price)
      == w.EquityAt(t.symbol, t.price) - Times(Times(i.baseAmount, t.price), ex.slippageBps) / 10000.0
         - Times(ex.feeRate, f.Gross()) + clamp
  {
    var f := FillFor(ex, (x: real) => x, i, t);
    var v := Applied(w, f).value;
    var slip := ex.slippageBps / 10000.0;
    TimesSum(w.Base(t.symbol), f.BaseDelta(), v.Base(t.symbol) - (w.Base(t.symbol) + f.BaseDelta()), t.price);
    TimesMinus(i.baseAmount, t.price);
    SlippageOf(i.baseAmount, t.price, ex.slippageBps);
    assert f.fee == Times(ex.feeRate, f.Gross());
  }

  lemma SlippageOf(q: real, p: real, bps: real)
    ensures Times(q, Times(p, 1.0 + bps / 10000.0)) == Times(q, p) + Times(Times(q, p), bps) / 10000.0
    ensures Times(q, Times(p, 1.0 - bps / 10000.0)) == Times(q, p) - Times(Times(q, p), bps) / 10000.0
  {
    var s := bps / 10000.0;
    assert q * (p * (1.0 + s)) == q * p + (q * p) * s;
    assert q * (p * (1.0 - s)) == q * p - (q * p) * s;
    assert (q * p) * s == ((q * p) * bps) / 10000.0;
  }

  lemma TimesSum(a: real, b: real, c: real, p: real)
    ensures Times(a + b + c, p) == Times(a, p) + Times(b, p) + Times(c, p)
  {
    assert (a + b + c) * p == a * p + b * p + c * p;
  }

  lemma TimesMinus(a: real, p: real)
    ensures Times(-a, p) == -Times(a, p)
  {
  }
}
