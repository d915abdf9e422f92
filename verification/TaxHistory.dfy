/** Fees and profit over whole histories of fills, refused ones included. */
module TaxHistory {
  import opened TaxLedger
  import opened TaxTheorems

  /** The total of one figure over every match of the coin. */
  ghost function Total(h: seq<Fill>, coin: string, g: MatchedTrade -> real): real {
    if h == [] then 0.0
    else
      var before, f := h[..|h| - 1], h[|h| - 1];
      Total(before, coin, g)
      + if Accepted(before, f, "SELL", coin) then Over(Booked(Books(before), f).1.value, g) else 0.0
  }

  /** The fees of the coin's accepted fills on one side. */
  ghost function FeesPaid(h: seq<Fill>, coin: string, side: string): real {
    if h == [] then 0.0
    else
      var before, f := h[..|h| - 1], h[|h| - 1];
      FeesPaid(before, coin, side) + if Accepted(before, f, side, coin) then f.fee else 0.0
  }

  ghost function Proceeds(h: seq<Fill>, coin: string): real {
    if h == [] then 0.0
    else
      var before, f := h[..|h| - 1], h[|h| - 1];
      Proceeds(before, coin) + if Accepted(before, f, "SELL", coin) then Worth(f.qty, f.price) else 0.0
  }

  /** Buy fees that left with dropped dust. */
  ghost function FeesLost(h: seq<Fill>, coin: string): real {
    if h == [] then 0.0
    else
      var before, f := h[..|h| - 1], h[|h| - 1];
      FeesLost(before, coin)
      + if Accepted(before, f, "SELL", coin) then DroppedFees(Books(before), coin, f.qty, |Books(before)|) else 0.0
  }

  ghost function FeesInHand(lots: seq<BuyLot>, coin: string): real {
    Carried(lots, coin, |lots|)
  }

  // ---- one fill -------------------------------------------------------------------------------------

  lemma CarriedAppended(lots: seq<BuyLot>, lot: BuyLot, coin: string)
    ensures FeesInHand(lots + [lot], coin) == FeesInHand(lots, coin) + if lot.coin == coin then lot.fee else 0.0
  {
    CarriedOfPrefix(lots, lots + [lot], coin, |lots|);
  }

  lemma {:induction false} OtherCoinsCarried(lots: seq<BuyLot>, coin: string, other: string, q: real, n: nat)
    requires n <= |lots| && Positive(lots) && other != coin
    ensures FeesInHand(Left(lots, coin, q, n), other) == Carried(lots, other, n)
  {
    hide Reduced, Taken, Wanted;
    if n > 0 {
      OtherCoinsCarried(lots, coin, other, q, n - 1);
      var lot, kept := lots[n - 1], Left(lots, coin, q, n - 1);
      CarriedAppended(kept, lot, other);
      if Touched(lots, coin, q, n - 1) {
        var t := Taken(lots, coin, q, n - 1);
        PartsOf(lot, t, Fill("", 0, "", "", 1.0, 1.0, 0.0));
        CarriedAppended(kept, Reduced(lot, t), other);
      }
    }
  }

  /** One fill, accepted or refused, on any coin. */
  lemma FillKeepsFees(lots: seq<BuyLot>, f: Fill, coin: string)
    requires Positive(lots)
    ensures var res := Booked(lots, f);
      var mine := res.1.Ok? && Upper(f.coin) == coin;
      var sold := mine && Upper(f.side) == "SELL";
      FeesInHand(lots, coin) + (if mine && Upper(f.side) == "BUY" then f.fee else 0.0)
      == FeesInHand(res.0, coin) + (if sold then Over(res.1.value, BuyFee) else 0.0)
         + (if sold then DroppedFees(lots, coin, f.qty, |lots|) else 0.0)
  {
    hide Over, Left, Matches, DroppedFees, Carried, Upper;
    var res := Booked(lots, f);
    if res.1.Ok? {
      if Upper(f.side) == "BUY" {
        CarriedAppended(lots, BuyLot(Upper(f.coin), f.qty, f.price, f.ts, f.fee, f.id), coin);
      } else if Upper(f.coin) == coin {
        BuyFeesConserved(lots, f, coin, |lots|);
      } else {
        OtherCoinsCarried(lots, Upper(f.coin), coin, f.qty, |lots|);
      }
    }
  }

  // ---- histories --------------------------------------------------------------------------------------

  /** Buy fees paid = fees charged to matches + fees the lots still carry + fees dropped with dust;
      sell fees paid are all charged to matches. */
  lemma {:induction false} FeesConserved(h: seq<Fill>, coin: string)
    ensures FeesPaid(h, coin, "BUY") == Total(h, coin, BuyFee) + FeesInHand(Books(h), coin) + FeesLost(h, coin)
    ensures FeesPaid(h, coin, "SELL") == Total(h, coin, SellFee)
  {
    hide Upper, Over, DroppedFees, Left, Matches, FeesInHand;
    if h == [] {
      NothingCarried(coin);
    } else {
      var before, f := h[..|h| - 1], h[|h| - 1];
      FeesConserved(before, coin);
      FillKeepsFees(Books(before), f, coin);
      if Accepted(before, f, "SELL", coin) {
        SellIsMatchedExactly(Books(before), f, coin);
      }
    }
  }

  lemma NothingCarried(coin: string)
    ensures FeesInHand([], coin) == 0.0
  {
  }

  lemma AtItsPrice(m: MatchedTrade, w: real -> real)
    requires w(m.buyPrice) == m.buyPrice
    ensures Weighed(w)(m) == Cost(m)
  {
  }

  lemma {:induction false} WeighedByPrice(ms: seq<MatchedTrade>)
    ensures Over(ms, Weighed(Price)) == Over(ms, Cost)
  {
    hide Worth;
    if ms != [] {
      WeighedByPrice(ms[..|ms| - 1]);
      AtItsPrice(ms[|ms| - 1], Price);
    }
  }

  lemma {:induction false} ProfitIsWhatRemains(h: seq<Fill>, coin: string)
    ensures Total(h, coin, Cost) == Matched(h, coin, Price)
    ensures Total(h, coin, Pnl)
         == Proceeds(h, coin) - Total(h, coin, Cost) - Total(h, coin, BuyFee) - Total(h, coin, SellFee)
  {
    hide Upper, Over, Left, Matches, Worth;
    if h != [] {
      var before, f := h[..|h| - 1], h[|h| - 1];
      ProfitIsWhatRemains(before, coin);
      if Accepted(before, f, "SELL", coin) {
        PnlIsExact(Books(before), f, coin, |Books(before)|);
        SellIsMatchedExactly(Books(before), f, coin);
        WeighedByPrice(Booked(Books(before), f).1.value);
      }
    }
  }

  /** All realized profit of a coin: proceeds, less what the matched lots had cost, which is what
      was paid less what is still held and the dust, less the fees of both sides, but for those
      still carried and those dropped. */
  lemma ProfitAccounted(h: seq<Fill>, coin: string)
    ensures Total(h, coin, Pnl)
         == Proceeds(h, coin)
            - (Bought(h, coin, Price) - InHand(Books(h), coin, Price) - DustLost(h, coin, Price))
            - (FeesPaid(h, coin, "BUY") - FeesInHand(Books(h), coin) - FeesLost(h, coin))
            - FeesPaid(h, coin, "SELL")
  {
    FeesConserved(h, coin);
    ProfitIsWhatRemains(h, coin);
    HistoryConserves(h, coin, Price);
  }
}
