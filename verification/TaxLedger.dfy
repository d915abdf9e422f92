/** treasuryforge/risk/tax.py: first-in-first-out matching of sells against buy lots. */
module TaxLedger {
  import opened Sums
  import opened Wrappers

  /** Lots at most this large after a match are dropped. */
  const DUST: real := 0.0000000001

  datatype BuyLot = BuyLot(coin: string, qty: real, price: real, ts: int, fee: real, fillId: string)

  datatype MatchedTrade = MatchedTrade(coin: string, qty: real, buyTs: int, sellTs: int, buyPrice: real,
    sellPrice: real, buyFee: real, sellFee: real, buyId: string, sellId: string, realizedPnl: real)

  datatype Error = BadQuantity | BadPrice | BadFee | Insufficient | UnknownSide

  datatype Fill = Fill(id: string, ts: int, coin: string, side: string, qty: real, price: real, fee: real)

  function UpperChar(c: char): char {
    if 'a' <= c <= 'z' then c - 32 as char else c
  }

  function Upper(s: string): string {
    seq(|s|, i requires 0 <= i < |s| => UpperChar(s[i]))
  }

  /** Lots on the books hold a positive quantity. */
  ghost predicate Positive(lots: seq<BuyLot>) {
    forall i :: 0 <= i < |lots| ==> lots[i].qty > 0.0
  }

  // ---- the reference: what a sell takes from each lot ------------------------------------
  // Lot i gives up what is still wanted after all earlier lots of the coin are used up.

  function Worth(qty: real, unit: real): real {
    qty * unit
  }

  /** The part of a fee that falls on a part of a quantity. */
  function Share(fee: real, part: real, whole: real): real
    requires whole > 0.0
  {
    fee * (part / whole)
  }

  /** The coin's quantity in the first n lots, weighed by a function of the lot's price. */
  function Held(lots: seq<BuyLot>, coin: string, n: nat, w: real -> real): real
    requires n <= |lots|
  {
    if n == 0 then 0.0
    else Held(lots, coin, n - 1, w) + if lots[n - 1].coin == coin then Worth(lots[n - 1].qty, w(lots[n - 1].price))
        else 0.0
  }

  function One(price: real): real {
    1.0
  }

  function Price(price: real): real {
    price
  }

  function Inventory(lots: seq<BuyLot>, coin: string): real {
    Held(lots, coin, |lots|, One)
  }

  function Wanted(lots: seq<BuyLot>, coin: string, sellQty: real, i: nat): real
    requires i <= |lots|
  {
    Max(sellQty - Held(lots, coin, i, One), 0.0)
  }

  function Taken(lots: seq<BuyLot>, coin: string, sellQty: real, i: nat): real
    requires i < |lots|
  {
    if lots[i].coin == coin then Min(Wanted(lots, coin, sellQty, i), lots[i].qty) else 0.0
  }

  predicate Touched(lots: seq<BuyLot>, coin: string, sellQty: real, i: nat)
    requires i < |lots|
  {
    lots[i].coin == coin && Wanted(lots, coin, sellQty, i) > 0.0
  }

  function Reduced(lot: BuyLot, taken: real): BuyLot
    requires lot.qty > 0.0
  {
    lot.(qty := lot.qty - taken, fee := lot.fee - Share(lot.fee, taken, lot.qty))
  }

  /** What is left of the first n lots. */
  function Left(lots: seq<BuyLot>, coin: string, sellQty: real, n: nat): seq<BuyLot>
    requires n <= |lots| && Positive(lots)
  {
    if n == 0 then []
    else
      var lot, before := lots[n - 1], Left(lots, coin, sellQty, n - 1);
      if !Touched(lots, coin, sellQty, n - 1) then before + [lot]
      else
        var rest := Reduced(lot, Taken(lots, coin, sellQty, n - 1));
        if rest.qty > DUST then before + [rest] else before
  }

  function Match(lot: BuyLot, taken: real, f: Fill): MatchedTrade
    requires lot.qty > 0.0 && f.qty > 0.0
  {
    var buyFee, sellFee := Share(lot.fee, taken, lot.qty), Share(f.fee, taken, f.qty);
    MatchedTrade(lot.coin, taken, lot.ts, f.ts, lot.price, f.price, buyFee, sellFee, lot.fillId, f.id,
                 Worth(taken, f.price) - Worth(taken, lot.price) - buyFee - sellFee)
  }

  /** The matches made on the first n lots. */
  function Matches(lots: seq<BuyLot>, coin: string, f: Fill, n: nat): seq<MatchedTrade>
    requires n <= |lots| && Positive(lots) && f.qty > 0.0
  {
    if n == 0 then []
    else
      var before := Matches(lots, coin, f, n - 1);
      if !Touched(lots, coin, f.qty, n - 1) then before
      else before + [Match(lots[n - 1], Taken(lots, coin, f.qty, n - 1), f)]
  }

  // ---- the code ------------------------------------------------------------------------------

  class FifoTaxLedger {
    var activeLots: seq<BuyLot>
    var matchedTrades: seq<MatchedTrade>
    var saved: (seq<BuyLot>, seq<MatchedTrade>)        // the state file

    ghost predicate Valid()
      reads this
    {
      Positive(activeLots) && saved == (activeLots, matchedTrades)
    }

    constructor (file: (seq<BuyLot>, seq<MatchedTrade>))
      requires Positive(file.0)
      ensures Valid() && (activeLots, matchedTrades) == file
    {
      saved, activeLots, matchedTrades := file, file.0, file.1;
    }

    /** Add a fill; a refused one changes nothing. */
    method AddFill(f: Fill) returns (res: Result<seq<MatchedTrade>, Error>)
      requires Valid()
      modifies this
      ensures Valid()
      ensures res == Booked(old(activeLots), f).1
      ensures activeLots == Booked(old(activeLots), f).0
      ensures matchedTrades == old(matchedTrades) + if res.Ok? then res.value else []
    {
      var side := Upper(f.side);
      if f.qty <= 0.0 {
        return Err(BadQuantity);
      }
      if f.price <= 0.0 {
        return Err(BadPrice);
      }
      if f.fee < 0.0 {
        return Err(BadFee);
      }
      var coin := Upper(f.coin);
      if side == "BUY" {
        activeLots := activeLots + [BuyLot(coin, f.qty, f.price, f.ts, f.fee, f.id)];
        saved := (activeLots, matchedTrades);
        return Ok([]);
      } else if side == "SELL" {
        res := MatchSell(coin, f);
        if res.Ok? {
          matchedTrades := matchedTrades + res.value;
          saved := (activeLots, matchedTrades);
        }
        return res;
      }
      return Err(UnknownSide);
    }

    method MatchSell(coin: string, f: Fill) returns (res: Result<seq<MatchedTrade>, Error>)
      requires Positive(activeLots) && f.qty > 0.0
      modifies this`activeLots
      ensures Positive(activeLots)
      ensures res.Err? <==> Inventory(old(activeLots), coin) < f.qty
      ensures res.Err? ==> res.error == Insufficient && activeLots == old(activeLots)
      ensures res.Ok? ==> activeLots == Left(old(activeLots), coin, f.qty, |old(activeLots)|)
      ensures res.Ok? ==> res.value == Matches(old(activeLots), coin, f, |old(activeLots)|)
    {
      var available := Inventory(activeLots, coin);
      if available < f.qty {
        return Err(Insufficient);
      }
      var matches: seq<MatchedTrade> := [];
      var remaining := f.qty;
      var newLots: seq<BuyLot> := [];
      var lots := activeLots;
      for i := 0 to |lots|
        invariant Positive(newLots)
        invariant remaining == Wanted(lots, coin, f.qty, i)
        invariant newLots == Left(lots, coin, f.qty, i)
        invariant matches == Matches(lots, coin, f, i)
      {
        var lot := lots[i];
        if lot.coin != coin || remaining <= 0.0 {
          newLots := newLots + [lot];
          WantedUnchanged(lots, coin, f.qty, i);
        } else {
          var entry: MatchedTrade;
          entry, lot := MatchLot(lot, remaining, f);
          matches := matches + [entry];
          remaining := remaining - entry.qty;
          if lot.qty > DUST {
            newLots := newLots + [lot];
          }
          WantedReduced(lots, coin, f.qty, i);
        }
      }
      activeLots := newLots;
      return Ok(matches);
    }

    /** One lot against what is still to sell. */
    method MatchLot(lot: BuyLot, remaining: real, f: Fill) returns (entry: MatchedTrade, left: BuyLot)
      requires lot.qty > 0.0 && f.qty > 0.0
      ensures entry == Match(lot, Min(remaining, lot.qty), f)
      ensures left == Reduced(lot, Min(remaining, lot.qty))
    {
      var qty := Min(remaining, lot.qty);
      var buyFee := lot.fee * (qty / lot.qty);
      var sellFee := f.fee * (qty / f.qty);
      var pnl := qty * f.price - qty * lot.price - buyFee - sellFee;
      entry := MatchedTrade(lot.coin, qty, lot.ts, f.ts, lot.price, f.price, buyFee, sellFee, lot.fillId, f.id, pnl);
      left := lot.(qty := lot.qty - qty, fee := lot.fee - buyFee);
    }

    /** The coin's lots, oldest first. */
    method GetInventory(coin: string) returns (lots: seq<BuyLot>)
      ensures lots == OfCoin(activeLots, Upper(coin), |activeLots|)
    {
      lots := [];
      for i := 0 to |activeLots|
        invariant lots == OfCoin(activeLots, Upper(coin), i)
      {
        if activeLots[i].coin == Upper(coin) {
          lots := lots + [activeLots[i]];
        }
      }
    }

    method GetUnrealizedCostBasis(coin: string) returns (basis: real)
      ensures basis == Held(activeLots, Upper(coin), |activeLots|, Price)
    {
      basis := 0.0;
      for i := 0 to |activeLots|
        invariant basis == Held(activeLots, Upper(coin), i, Price)
      {
        if activeLots[i].coin == Upper(coin) {
          basis := basis + activeLots[i].qty * activeLots[i].price;
        }
      }
    }
  }

  function OfCoin(lots: seq<BuyLot>, coin: string, n: nat): seq<BuyLot>
    requires n <= |lots|
  {
    if n == 0 then []
    else OfCoin(lots, coin, n - 1) + if lots[n - 1].coin == coin then [lots[n - 1]] else []
  }

  /** The books after a fill, and what add_fill answers. */
  function Booked(lots: seq<BuyLot>, f: Fill): (seq<BuyLot>, Result<seq<MatchedTrade>, Error>)
    requires Positive(lots)
  {
    var coin := Upper(f.coin);
    if f.qty <= 0.0 then (lots, Err(BadQuantity))
    else if f.price <= 0.0 then (lots, Err(BadPrice))
    else if f.fee < 0.0 then (lots, Err(BadFee))
    else if Upper(f.side) == "BUY" then
      (lots + [BuyLot(coin, f.qty, f.price, f.ts, f.fee, f.id)], Ok([]))
    else if Upper(f.side) == "SELL" then
      if Inventory(lots, coin) < f.qty then (lots, Err(Insufficient))
      else (Left(lots, coin, f.qty, |lots|), Ok(Matches(lots, coin, f, |lots|)))
    else (lots, Err(UnknownSide))
  }

  lemma WantedUnchanged(lots: seq<BuyLot>, coin: string, q: real, i: nat)
    requires i < |lots| && Positive(lots)
    requires lots[i].coin != coin || Wanted(lots, coin, q, i) <= 0.0
    ensures Wanted(lots, coin, q, i + 1) == Wanted(lots, coin, q, i)
  {
  }

  lemma WantedReduced(lots: seq<BuyLot>, coin: string, q: real, i: nat)
    requires i < |lots| && Positive(lots) && Touched(lots, coin, q, i)
    ensures Wanted(lots, coin, q, i + 1) == Wanted(lots, coin, q, i) - Taken(lots, coin, q, i)
  {
  }
}
