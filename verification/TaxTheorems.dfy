/** What the tax ledger conserves, and the order in which it consumes. */
module TaxTheorems {
  import opened Wrappers
  import opened TaxLedger

  // ---- one sell ------------------------------------------------------------------

  /** The total of one figure over the matches. */
  ghost function Over(ms: seq<MatchedTrade>, g: MatchedTrade -> real): real {
    if ms == [] then 0.0 else Over(ms[..|ms| - 1], g) + g(ms[|ms| - 1])
  }

  /** Matched quantity, each unit weighed by a function of its buy price. */
  ghost function Weighed(w: real -> real): MatchedTrade -> real {
    (m: MatchedTrade) => Worth(m.qty, w(m.buyPrice))
  }

  ghost function Qty(m: MatchedTrade): real {
    m.qty
  }

  ghost function Cost(m: MatchedTrade): real {
    Worth(m.qty, m.buyPrice)
  }

  ghost function BuyFee(m: MatchedTrade): real {
    m.buyFee
  }

  ghost function SellFee(m: MatchedTrade): real {
    m.sellFee
  }

  ghost function Pnl(m: MatchedTrade): real {
    m.realizedPnl
  }

  lemma Appended(ms: seq<MatchedTrade>, m: MatchedTrade, g: MatchedTrade -> real)
    ensures Over(ms + [m], g) == Over(ms, g) + g(m)
  {
    assert (ms + [m])[..|ms|] == ms;
  }

  lemma HeldAppended(lots: seq<BuyLot>, lot: BuyLot, coin: string, w: real -> real)
    ensures Held(lots + [lot], coin, |lots| + 1, w)
         == Held(lots, coin, |lots|, w) + if lot.coin == coin then Worth(lot.qty, w(lot.price)) else 0.0
  {
    HeldOfPrefix(lots, lots + [lot], coin, |lots|, w);
  }

  lemma {:induction false} HeldOfPrefix(a: seq<BuyLot>, b: seq<BuyLot>, coin: string, n: nat, w: real -> real)
    requires n <= |a| && n <= |b| && a[..n] == b[..n]
    ensures Held(a, coin, n, w) == Held(b, coin, n, w)
  {
    if n > 0 {
      assert a[n - 1] == a[..n][n - 1] == b[n - 1];
      assert a[..n - 1] == a[..n][..n - 1] == b[..n - 1];
      HeldOfPrefix(a, b, coin, n - 1, w);
    }
  }

  lemma {:induction false} LeftPositive(lots: seq<BuyLot>, coin: string, q: real, n: nat)
    requires n <= |lots| && Positive(lots)
    ensures Positive(Left(lots, coin, q, n))
  {
    if n > 0 {
      LeftPositive(lots, coin, q, n - 1);
    }
  }

  /** The quantity dropped as dust, weighed by the lot's price. */
  ghost function Dropped(lots: seq<BuyLot>, coin: string, q: real, n: nat, w: real -> real): real
    requires n <= |lots| && Positive(lots)
  {
    if n == 0 then 0.0
    else Dropped(lots, coin, q, n - 1, w)
         + if Touched(lots, coin, q, n - 1) && lots[n - 1].qty - Taken(lots, coin, q, n - 1) <= DUST
           then Worth(lots[n - 1].qty - Taken(lots, coin, q, n - 1), w(lots[n - 1].price)) else 0.0
  }

  lemma PartsOf(lot: BuyLot, t: real, f: Fill)
    requires lot.qty > 0.0 && f.qty > 0.0
    ensures var r := Reduced(lot, t);
      r.qty == lot.qty - t && r.coin == lot.coin && r.price == lot.price
          && r.fee == lot.fee - Share(lot.fee, t, lot.qty)
    ensures var m := Match(lot, t, f);
      && m.qty == t && m.buyPrice == lot.price && m.buyId == lot.fillId && m.buyTs == lot.ts
      && m.sellFee == Share(f.fee, t, f.qty) && m.buyFee == Share(lot.fee, t, lot.qty)
      && m.realizedPnl == Worth(t, f.price) - Worth(t, lot.price) - m.buyFee - m.sellFee
  {
  }

  lemma SplitLot(q: real, t: real, w: real)
    ensures Worth(q, w) == Worth(t, w) + Worth(q - t, w)
  {
  }

  /** Whatever each unit is worth, nothing appears or disappears: what the lots held is
      what they still hold, plus what was matched, plus the dust. */
  lemma {:induction false} SellConserves(lots: seq<BuyLot>, f: Fill, coin: string, n: nat, w: real -> real)
    requires n <= |lots| && Positive(lots) && f.qty > 0.0
    ensures Held(lots, coin, n, w)
         == InHand(Left(lots, coin, f.qty, n), coin, w) + Over(Matches(lots, coin, f, n), Weighed(w))
            + Dropped(lots, coin, f.qty, n, w)
  {
    hide Reduced, Match, Taken, Wanted, Worth, Share, Over;
    if n == 0 {
      OverNothing(Weighed(w));
    } else {
      SellConserves(lots, f, coin, n - 1, w);
      var lot, kept := lots[n - 1], Left(lots, coin, f.qty, n - 1);
      if !Touched(lots, coin, f.qty, n - 1) {
        HeldAppended(kept, lot, coin, w);
      } else {
        var t := Taken(lots, coin, f.qty, n - 1);
        PartsOf(lot, t, f);
        SplitLot(lot.qty, t, w(lot.price));
        HeldAppended(kept, Reduced(lot, t), coin, w);
        Appended(Matches(lots, coin, f, n - 1), Match(lot, t, f), Weighed(w));
      }
    }
  }

  /** Buy fees still carried by the coin's lots. */
  ghost function Carried(lots: seq<BuyLot>, coin: string, n: nat): real
    requires n <= |lots|
  {
    if n == 0 then 0.0
    else Carried(lots, coin, n - 1) + if lots[n - 1].coin == coin then lots[n - 1].fee else 0.0
  }

  /** Fees that leave with dropped dust. */
  ghost function DroppedFees(lots: seq<BuyLot>, coin: string, q: real, n: nat): real
    requires n <= |lots| && Positive(lots)
  {
    if n == 0 then 0.0
    else DroppedFees(lots, coin, q, n - 1)
         + if Touched(lots, coin, q, n - 1) && lots[n - 1].qty - Taken(lots, coin, q, n - 1) <= DUST
           then Reduced(lots[n - 1], Taken(lots, coin, q, n - 1)).fee else 0.0
  }

  lemma {:induction false} CarriedOfPrefix(a: seq<BuyLot>, b: seq<BuyLot>, coin: string, n: nat)
    requires n <= |a| && n <= |b| && a[..n] == b[..n]
    ensures Carried(a, coin, n) == Carried(b, coin, n)
  {
    if n > 0 {
      assert a[n - 1] == a[..n][n - 1] == b[n - 1];
      assert a[..n - 1] == a[..n][..n - 1] == b[..n - 1];
      CarriedOfPrefix(a, b, coin, n - 1);
    }
  }

  /** Buy fees are split between the match and the rest of the lot without loss. */
  lemma {:induction false} BuyFeesConserved(lots: seq<BuyLot>, f: Fill, coin: string, n: nat)
    requires n <= |lots| && Positive(lots) && f.qty > 0.0
    ensures var left := Left(lots, coin, f.qty, n);
      Carried(lots, coin, n) == Carried(left, coin, |left|) + Over(Matches(lots, coin, f, n), BuyFee)
                                + DroppedFees(lots, coin, f.qty, n)
  {
    hide Reduced, Match, Taken, Wanted, Share, Over;
    if n == 0 {
      OverNothing(BuyFee);
    } else {
      BuyFeesConserved(lots, f, coin, n - 1);
      var lot, kept := lots[n - 1], Left(lots, coin, f.qty, n - 1);
      if !Touched(lots, coin, f.qty, n - 1) {
        CarriedOfPrefix(kept, kept + [lot], coin, |kept|);
      } else {
        var t := Taken(lots, coin, f.qty, n - 1);
        PartsOf(lot, t, f);
        CarriedOfPrefix(kept, kept + [Reduced(lot, t)], coin, |kept|);
        Appended(Matches(lots, coin, f, n - 1), Match(lot, t, f), BuyFee);
      }
    }
  }

  lemma OverNothing(g: MatchedTrade -> real)
    ensures Over([], g) == 0.0
  {
  }

  ghost function InHand(lots: seq<BuyLot>, coin: string, w: real -> real): real {
    Held(lots, coin, |lots|, w)
  }

  /** The matches add up to the part of the sell served so far. */
  lemma {:induction false} MatchesAddUp(lots: seq<BuyLot>, f: Fill, coin: string, n: nat)
    requires n <= |lots| && Positive(lots) && f.qty > 0.0
    ensures Over(Matches(lots, coin, f, n), Qty) == f.qty - Wanted(lots, coin, f.qty, n)
  {
    hide Reduced, Match, Taken, Share, Over, Wanted;
    if n == 0 {
      WantedAtStart(lots, coin, f.qty);
      OverNothing(Qty);
    } else {
      MatchesAddUp(lots, f, coin, n - 1);
      if Touched(lots, coin, f.qty, n - 1) {
        var t := Taken(lots, coin, f.qty, n - 1);
        PartsOf(lots[n - 1], t, f);
        Appended(Matches(lots, coin, f, n - 1), Match(lots[n - 1], t, f), Qty);
        WantedReduced(lots, coin, f.qty, n - 1);
      } else {
        WantedUnchanged(lots, coin, f.qty, n - 1);
      }
    }
  }

  /** And so do their shares of the sell fee. */
  lemma {:induction false} SellFeesAddUp(lots: seq<BuyLot>, f: Fill, coin: string, n: nat)
    requires n <= |lots| && Positive(lots) && f.qty > 0.0
    ensures Over(Matches(lots, coin, f, n), SellFee) == Share(f.fee, f.qty - Wanted(lots, coin, f.qty, n), f.qty)
  {
    hide Reduced, Match, Taken, Worth, Share, Wanted, Over;
    if n == 0 {
      WantedAtStart(lots, coin, f.qty);
      ShareOfNothing(f.fee, f.qty);
      OverNothing(SellFee);
    } else {
      SellFeesAddUp(lots, f, coin, n - 1);
      if Touched(lots, coin, f.qty, n - 1) {
        var t := Taken(lots, coin, f.qty, n - 1);
        PartsOf(lots[n - 1], t, f);
        Appended(Matches(lots, coin, f, n - 1), Match(lots[n - 1], t, f), SellFee);
        WantedReduced(lots, coin, f.qty, n - 1);
        ShareAdds(f.fee, f.qty - Wanted(lots, coin, f.qty, n - 1), t, f.qty);
      } else {
        WantedUnchanged(lots, coin, f.qty, n - 1);
      }
    }
  }

  lemma WantedAtStart(lots: seq<BuyLot>, coin: string, q: real)
    requires q > 0.0
    ensures Wanted(lots, coin, q, 0) == q
  {
  }

  lemma ShareAdds(fee: real, a: real, b: real, q: real)
    requires q > 0.0
    ensures Share(fee, a, q) + Share(fee, b, q) == Share(fee, a + b, q)
  {
    assert a / q + b / q == (a + b) / q;
    assert fee * (a / q + b / q) == fee * (a / q) + fee * (b / q);
  }

  lemma ShareOfNothing(fee: real, q: real)
    requires q > 0.0
    ensures Share(fee, 0.0, q) == 0.0
  {
    assert 0.0 / q == 0.0;
  }

  lemma ShareOfAll(fee: real, q: real)
    requires q > 0.0
    ensures Share(fee, q, q) == fee
  {
    assert q / q == 1.0;
  }

  /** An accepted sell is matched in full. */
  lemma SellIsMatchedExactly(lots: seq<BuyLot>, f: Fill, coin: string)
    requires Positive(lots) && f.qty > 0.0 && Inventory(lots, coin) >= f.qty
    ensures Over(Matches(lots, coin, f, |lots|), Qty) == f.qty
    ensures Over(Matches(lots, coin, f, |lots|), SellFee) == f.fee
  {
    MatchesAddUp(lots, f, coin, |lots|);
    SellFeesAddUp(lots, f, coin, |lots|);
    ShareOfAll(f.fee, f.qty);
  }

  /** Realized profit is proceeds less cost basis less both fees, whatever the matches. */
  lemma {:induction false} PnlIsExact(lots: seq<BuyLot>, f: Fill, coin: string, n: nat)
    requires n <= |lots| && Positive(lots) && f.qty > 0.0
    ensures var ms := Matches(lots, coin, f, n);
      Over(ms, Pnl) == Worth(Over(ms, Qty), f.price) - Over(ms, Cost) - Over(ms, BuyFee) - Over(ms, SellFee)
  {
    hide Reduced, Match, Taken, Touched, Wanted, Worth, Share, Over;
    if n == 0 {
      Distribute(0.0, 0.0, f.price);
      OverNothing(Pnl); OverNothing(Qty); OverNothing(Cost); OverNothing(BuyFee); OverNothing(SellFee);
    } else {
      PnlIsExact(lots, f, coin, n - 1);
      if Touched(lots, coin, f.qty, n - 1) {
        var lot, ms, t := lots[n - 1], Matches(lots, coin, f, n - 1), Taken(lots, coin, f.qty, n - 1);
        var m := Match(lot, t, f);
        PartsOf(lot, t, f);
        Appended(ms, m, Pnl); Appended(ms, m, Qty); Appended(ms, m, Cost);
        Appended(ms, m, BuyFee); Appended(ms, m, SellFee);
        Distribute(Over(ms, Qty), t, f.price);
      }
    }
  }

  lemma Distribute(a: real, t: real, p: real)
    ensures Worth(a + t, p) == Worth(a, p) + Worth(t, p)
    ensures Worth(0.0, p) == 0.0
  {
  }

  /** At most one lot leaves dust, and at most the tolerance of it. */
  lemma {:induction false} DustIsBounded(lots: seq<BuyLot>, q: real, coin: string, n: nat)
    requires n <= |lots| && Positive(lots)
    ensures 0.0 <= Dropped(lots, coin, q, n, One) <= 0.0000000001
    ensures Wanted(lots, coin, q, n) > 0.0 ==> Dropped(lots, coin, q, n, One) == 0.0
  {
    if n > 0 {
      DustIsBounded(lots, q, coin, n - 1);
      if Touched(lots, coin, q, n - 1) {
        WantedReduced(lots, coin, q, n - 1);
      } else {
        WantedUnchanged(lots, coin, q, n - 1);
      }
    }
  }

  /** No sell leaves dust: what is left of a lot that it touched is more than the tolerance. */
  lemma {:induction false} NoDustIsLeft(lots: seq<BuyLot>, q: real, coin: string, n: nat)
    requires n <= |lots| && Positive(lots)
    ensures forall k :: 0 <= k < |Left(lots, coin, q, n)| ==>
              Left(lots, coin, q, n)[k] in lots || Left(lots, coin, q, n)[k].qty > 0.0000000001
  {
    hide Taken, Wanted;
    if n > 0 {
      NoDustIsLeft(lots, q, coin, n - 1);
      assert lots[n - 1] in lots;
    }
  }

  /** A match names the sell it is part of, and its profit is the price difference on its quantity
      less its two fees. */
  lemma {:induction false} MatchesNameTheSell(lots: seq<BuyLot>, f: Fill, coin: string, n: nat)
    requires n <= |lots| && Positive(lots) && f.qty > 0.0
    ensures forall k :: 0 <= k < |Matches(lots, coin, f, n)| ==>
              var m := Matches(lots, coin, f, n)[k];
              && m.sellId == f.id && m.sellTs == f.ts && m.sellPrice == f.price && m.coin == coin
              && m.realizedPnl == Worth(m.qty, m.sellPrice - m.buyPrice) - m.buyFee - m.sellFee
  {
    hide Taken, Wanted, Share;
    if n > 0 {
      MatchesNameTheSell(lots, f, coin, n - 1);
      if Touched(lots, coin, f.qty, n - 1) {
        MatchIs(lots[n - 1], Taken(lots, coin, f.qty, n - 1), f);
      }
    }
  }

  lemma MatchIs(lot: BuyLot, t: real, f: Fill)
    requires lot.qty > 0.0 && f.qty > 0.0
    ensures var m := Match(lot, t, f);
      && m.sellId == f.id && m.sellTs == f.ts && m.sellPrice == f.price && m.coin == lot.coin
      && m.realizedPnl == Worth(m.qty, m.sellPrice - m.buyPrice) - m.buyFee - m.sellFee
  {
    assert t * (f.price - lot.price) == t * f.price - t * lot.price;
  }

  /** The side is read in either case, and nothing else is a side. */
  lemma SideIff(side: string)
    ensures Upper(side) == "BUY" <==> |side| == 3 && side[0] in "Bb" && side[1] in "Uu" && side[2] in "Yy"
    ensures Upper(side) == "SELL" <==>
            |side| == 4 && side[0] in "Ss" && side[1] in "Ee" && side[2] in "Ll" && side[3] in "Ll"
  {
    var u := Upper(side);
    assert |side| == 3 ==> u == [u[0], u[1], u[2]];
    assert |side| == 4 ==> u == [u[0], u[1], u[2], u[3]];
  }

  /** A coin is one coin in either case. */
  lemma CoinIsUpper(coin: string, i: nat)
    requires i < |coin|
    ensures |Upper(coin)| == |coin| && !('a' <= Upper(coin)[i] <= 'z')
    ensures Upper(coin)[i] == coin[i] || ('a' <= coin[i] <= 'z' && Upper(coin)[i] as int + 32 == coin[i] as int)
  {
  }

  /** When a fill is refused, and why: bad figures first, then what the side asks; and a buy becomes
      the newest lot, as it is. */
  lemma FillIsBooked(lots: seq<BuyLot>, f: Fill)
    requires Positive(lots)
    ensures var (after, res) := Booked(lots, f);
      && (res == Err(BadQuantity) <==> f.qty <= 0.0)
      && (res == Err(BadPrice) <==> f.qty > 0.0 && f.price <= 0.0)
      && (res == Err(BadFee) <==> f.qty > 0.0 && f.price > 0.0 && f.fee < 0.0)
      && (f.qty > 0.0 && f.price > 0.0 && f.fee >= 0.0 ==>
            if Upper(f.side) == "BUY" then
              res == Ok([]) && |after| == |lots| + 1 && after[..|lots|] == lots
              && after[|lots|] == BuyLot(Upper(f.coin), f.qty, f.price, f.ts, f.fee, f.id)
            else if Upper(f.side) == "SELL" then
              res.Err? <==> InHand(lots, Upper(f.coin), (_) => 1.0) < f.qty
            else res == Err(UnknownSide))
      && (res.Err? ==> after == lots)
  {
    hide Held, Left, Matches, Upper;
    SameHeld(lots, Upper(f.coin), |lots|, One, (_) => 1.0);
  }

  lemma {:induction false} SameHeld(lots: seq<BuyLot>, coin: string, n: nat, v: real -> real, w: real -> real)
    requires n <= |lots| && forall x :: v(x) == w(x)
    ensures Held(lots, coin, n, v) == Held(lots, coin, n, w)
  {
    if n > 0 {
      SameHeld(lots, coin, n - 1, v, w);
    }
  }

  // ---- first in, first out ---------------------------------------------------------------

  lemma OfCoinAppended(lots: seq<BuyLot>, lot: BuyLot, coin: string)
    ensures OfCoin(lots + [lot], coin, |lots| + 1)
         == OfCoin(lots, coin, |lots|) + if lot.coin == coin then [lot] else []
  {
    OfCoinPrefix(lots, lots + [lot], coin, |lots|);
  }

  lemma {:induction false} OfCoinPrefix(a: seq<BuyLot>, b: seq<BuyLot>, coin: string, n: nat)
    requires n <= |a| && n <= |b| && a[..n] == b[..n]
    ensures OfCoin(a, coin, n) == OfCoin(b, coin, n)
  {
    if n > 0 {
      assert a[n - 1] == a[..n][n - 1] == b[n - 1];
      assert a[..n - 1] == a[..n][..n - 1] == b[..n - 1];
      OfCoinPrefix(a, b, coin, n - 1);
    }
  }

  /** A sell leaves every other coin's lots as they were, in the same order. */
  lemma {:induction false} OtherCoinsUntouched(lots: seq<BuyLot>, coin: string, other: string, q: real, n: nat)
    requires n <= |lots| && Positive(lots) && other != coin
    ensures var left := Left(lots, coin, q, n); OfCoin(left, other, |left|) == OfCoin(lots, other, n)
  {
    hide Wanted, Taken, Reduced;
    if n > 0 {
      OtherCoinsUntouched(lots, coin, other, q, n - 1);
      var lot, kept := lots[n - 1], Left(lots, coin, q, n - 1);
      OfCoinAppended(kept, lot, other);
      if Touched(lots, coin, q, n - 1) {
        var t := Taken(lots, coin, q, n - 1);
        PartsOf(lot, t, Fill("", 0, "", "", 1.0, 1.0, 0.0));
        OfCoinAppended(kept, Reduced(lot, t), other);
      }
    }
  }

  /** The matches walk down the coin's own list from the oldest lot, using up every lot
      before touching the next; and the coin's remaining list is the rest of it, headed
      by what is left of the last lot touched. */
  ghost predicate Fifo(own: seq<BuyLot>, ms: seq<MatchedTrade>, left: seq<BuyLot>, stillWanted: bool) {
    && |ms| <= |own|
    && (forall k :: 0 <= k < |ms| ==> ms[k].buyId == own[k].fillId && ms[k].buyTs == own[k].ts
                                      && ms[k].buyPrice == own[k].price && 0.0 < ms[k].qty <= own[k].qty)
    && (forall k :: 0 <= k < |ms| && (stillWanted || k + 1 < |ms|) ==> ms[k].qty == own[k].qty)
    && (left == own[|ms|..]
        || (ms != [] && left == [Reduced'(own[|ms| - 1], ms[|ms| - 1].qty)] + own[|ms|..]))
    && (stillWanted ==> |ms| == |own| && left == [])
  }

  ghost function Reduced'(lot: BuyLot, t: real): BuyLot {
    if lot.qty > 0.0 then Reduced(lot, t) else lot
  }

  /** A lot passed by joins both lists. */
  lemma FifoKeep(own: seq<BuyLot>, ms: seq<MatchedTrade>, left: seq<BuyLot>, lot: BuyLot)
    requires Fifo(own, ms, left, false)
    ensures Fifo(own + [lot], ms, left + [lot], false)
  {
    assert (own + [lot])[|ms|..] == own[|ms|..] + [lot];
  }

  /** A lot is touched only when all earlier ones are used up. */
  lemma FifoTake(own: seq<BuyLot>, ms: seq<MatchedTrade>, left: seq<BuyLot>, lot: BuyLot, t: real, f: Fill,
                 left': seq<BuyLot>, stillWanted: bool)
    requires Fifo(own, ms, left, true) && 0.0 < t <= lot.qty && f.qty > 0.0
    requires left' == if lot.qty - t > DUST then [Reduced(lot, t)] else []
    requires stillWanted ==> t == lot.qty
    ensures Fifo(own + [lot], ms + [Match(lot, t, f)], left', stillWanted)
  {
    hide Reduced, Match;
    PartsOf(lot, t, f);
    assert (own + [lot])[|ms| + 1..] == [];
  }

  /** The three lists and the rest of the order, n lots into a sell. */
  ghost predicate FifoAt(lots: seq<BuyLot>, f: Fill, coin: string, n: nat)
    requires n <= |lots| && Positive(lots) && f.qty > 0.0
  {
    var left := Left(lots, coin, f.qty, n);
    Fifo(OfCoin(lots, coin, n), Matches(lots, coin, f, n), OfCoin(left, coin, |left|),
         Wanted(lots, coin, f.qty, n) > 0.0)
  }

  lemma SellIsFifo(lots: seq<BuyLot>, f: Fill, coin: string, n: nat)
    requires n <= |lots| && Positive(lots) && f.qty > 0.0
    ensures var left := Left(lots, coin, f.qty, n);
      Fifo(OfCoin(lots, coin, n), Matches(lots, coin, f, n), OfCoin(left, coin, |left|),
           Wanted(lots, coin, f.qty, n) > 0.0)
  {
    hide Fifo, Left, Matches, OfCoin, Wanted;
    AlwaysFifo(lots, f, coin, n);
  }

  lemma {:induction false} AlwaysFifo(lots: seq<BuyLot>, f: Fill, coin: string, n: nat)
    requires n <= |lots| && Positive(lots) && f.qty > 0.0
    ensures FifoAt(lots, f, coin, n)
  {
    hide FifoAt, Touched;
    if n == 0 {
      FifoStart(lots, f, coin);
    } else {
      AlwaysFifo(lots, f, coin, n - 1);
      if Touched(lots, coin, f.qty, n - 1) {
        TouchedIsFifo(lots, f, coin, n - 1);
      } else {
        PassedIsFifo(lots, f, coin, n - 1);
      }
    }
  }

  lemma TouchedIsFifo(lots: seq<BuyLot>, f: Fill, coin: string, n: nat)
    requires n < |lots| && Positive(lots) && f.qty > 0.0 && FifoAt(lots, f, coin, n) && Touched(lots, coin, f.qty, n)
    ensures FifoAt(lots, f, coin, n + 1)
  {
    hide Fifo, Reduced, Match, Share;
    var lot, kept, t := lots[n], Left(lots, coin, f.qty, n), Taken(lots, coin, f.qty, n);
    var own, ms, left := OfCoin(lots, coin, n), Matches(lots, coin, f, n), OfCoin(kept, coin, |kept|);
    WantedReduced(lots, coin, f.qty, n);
    PartsOf(lot, t, f);
    OfCoinAppended(kept, Reduced(lot, t), coin);
    FifoTakes(own, ms, left, lot, t, f, Wanted(lots, coin, f.qty, n + 1) > 0.0);
    assert left + [Reduced(lot, t)] == [Reduced(lot, t)];
  }

  lemma PassedIsFifo(lots: seq<BuyLot>, f: Fill, coin: string, n: nat)
    requires n < |lots| && Positive(lots) && f.qty > 0.0 && FifoAt(lots, f, coin, n) && !Touched(lots, coin, f.qty, n)
    ensures FifoAt(lots, f, coin, n + 1)
  {
    hide Fifo, Reduced, Match, Share, Taken;
    var lot, kept := lots[n], Left(lots, coin, f.qty, n);
    var own, ms, left := OfCoin(lots, coin, n), Matches(lots, coin, f, n), OfCoin(kept, coin, |kept|);
    WantedUnchanged(lots, coin, f.qty, n);
    OfCoinAppended(kept, lot, coin);
    if lot.coin == coin {
      FifoKeep(own, ms, left, lot);
    } else {
      assert own + [] == own && left + [] == left;
    }
  }

  lemma FifoTakes(own: seq<BuyLot>, ms: seq<MatchedTrade>, left: seq<BuyLot>, lot: BuyLot, t: real, f: Fill,
                  stillWanted: bool)
    requires Fifo(own, ms, left, true) && 0.0 < t <= lot.qty && f.qty > 0.0 && (stillWanted ==> t == lot.qty)
    ensures left == []
    ensures Fifo(own + [lot], ms + [Match(lot, t, f)], if lot.qty - t > DUST then [Reduced(lot, t)] else [],
                 stillWanted)
  {
    hide Fifo, Reduced, Match, Share;
    FifoWantedMeansEmpty(own, ms, left);
    FifoTake(own, ms, left, lot, t, f, if lot.qty - t > DUST then [Reduced(lot, t)] else [], stillWanted);
  }

  lemma FifoStart(lots: seq<BuyLot>, f: Fill, coin: string)
    requires Positive(lots) && f.qty > 0.0
    ensures FifoAt(lots, f, coin, 0)
  {
  }

  lemma FifoWantedMeansEmpty(own: seq<BuyLot>, ms: seq<MatchedTrade>, left: seq<BuyLot>)
    requires Fifo(own, ms, left, true)
    ensures left == []
  {
  }

  // ---- every history of fills ------------------------------------------------------------

  /** The lots after a history, refused fills included. */
  ghost function Books(h: seq<Fill>): (lots: seq<BuyLot>)
    ensures Positive(lots)
  {
    if h == [] then []
    else
      var before, f := Books(h[..|h| - 1]), h[|h| - 1];
      LeftPositive(before, Upper(f.coin), f.qty, |before|);
      Booked(before, f).0
  }

  /** A fill the ledger accepts after h, on that side of that coin. */
  ghost predicate Accepted(h: seq<Fill>, f: Fill, side: string, coin: string) {
    Booked(Books(h), f).1.Ok? && Upper(f.side) == side && Upper(f.coin) == coin
  }

  ghost function Bought(h: seq<Fill>, coin: string, w: real -> real): real {
    if h == [] then 0.0
    else
      var before, f := h[..|h| - 1], h[|h| - 1];
      Bought(before, coin, w) + if Accepted(before, f, "BUY", coin) then Worth(f.qty, w(f.price)) else 0.0
  }

  /** What the matches of the coin's accepted sells took, each unit weighed by its buy price. */
  ghost function Matched(h: seq<Fill>, coin: string, w: real -> real): real {
    if h == [] then 0.0
    else
      var before, f := h[..|h| - 1], h[|h| - 1];
      Matched(before, coin, w)
      + if Accepted(before, f, "SELL", coin) then Over(Booked(Books(before), f).1.value, Weighed(w)) else 0.0
  }

  ghost function Sold(h: seq<Fill>, coin: string): real {
    if h == [] then 0.0
    else
      var before, f := h[..|h| - 1], h[|h| - 1];
      Sold(before, coin) + if Accepted(before, f, "SELL", coin) then f.qty else 0.0
  }

  ghost function Sells(h: seq<Fill>, coin: string): nat {
    if h == [] then 0
    else
      var before, f := h[..|h| - 1], h[|h| - 1];
      Sells(before, coin) + if Accepted(before, f, "SELL", coin) then 1 else 0
  }

  ghost function DustLost(h: seq<Fill>, coin: string, w: real -> real): real {
    if h == [] then 0.0
    else
      var before, f := h[..|h| - 1], h[|h| - 1];
      DustLost(before, coin, w)
      + if Accepted(before, f, "SELL", coin) then Dropped(Books(before), coin, f.qty, |Books(before)|, w) else 0.0
  }

  lemma {:induction false} OtherCoinsHeld(lots: seq<BuyLot>, coin: string, other: string, q: real, n: nat,
                                          w: real -> real)
    requires n <= |lots| && Positive(lots) && other != coin
    ensures InHand(Left(lots, coin, q, n), other, w) == Held(lots, other, n, w)
  {
    hide Worth, Reduced, Taken, Wanted;
    if n > 0 {
      OtherCoinsHeld(lots, coin, other, q, n - 1, w);
      var lot, kept := lots[n - 1], Left(lots, coin, q, n - 1);
      HeldAppended(kept, lot, other, w);
      if Touched(lots, coin, q, n - 1) {
        var t := Taken(lots, coin, q, n - 1);
        PartsOf(lot, t, Fill("", 0, "", "", 1.0, 1.0, 0.0));
        HeldAppended(kept, Reduced(lot, t), other, w);
      }
    }
  }

  /** One fill, accepted or refused, on any coin. */
  lemma FillConserves(lots: seq<BuyLot>, f: Fill, coin: string, w: real -> real)
    requires Positive(lots)
    ensures var res := Booked(lots, f);
      var mine := res.1.Ok? && Upper(f.coin) == coin;
      var sold := mine && Upper(f.side) == "SELL";
      InHand(lots, coin, w) + (if mine && Upper(f.side) == "BUY" then Worth(f.qty, w(f.price)) else 0.0)
      == InHand(res.0, coin, w) + (if sold then Over(res.1.value, Weighed(w)) else 0.0)
         + (if sold then Dropped(lots, coin, f.qty, |lots|, w) else 0.0)
  {
    hide Worth, Over, Left, Matches, Dropped, Held, Upper;
    var res := Booked(lots, f);
    if res.1.Ok? {
      if Upper(f.side) == "BUY" {
        HeldAppended(lots, BuyLot(Upper(f.coin), f.qty, f.price, f.ts, f.fee, f.id), coin, w);
      } else if Upper(f.coin) == coin {
        SellConserves(lots, f, coin, |lots|, w);
      } else {
        OtherCoinsHeld(lots, Upper(f.coin), coin, f.qty, |lots|, w);
      }
    }
  }

  /** Over any history, per coin: bought = matched + still held + dust.  With weight 1
      these are quantities; weighed by price they are cost bases. */
  lemma {:induction false} HistoryConserves(h: seq<Fill>, coin: string, w: real -> real)
    ensures Bought(h, coin, w) == Matched(h, coin, w) + InHand(Books(h), coin, w) + DustLost(h, coin, w)
  {
    hide Booked, Upper, Worth, Over, Dropped;
    if h == [] {
      NothingHeld(coin, w);
    } else {
      HistoryConserves(h[..|h| - 1], coin, w);
      FillConserves(Books(h[..|h| - 1]), h[|h| - 1], coin, w);
    }
  }

  lemma NothingHeld(coin: string, w: real -> real)
    ensures InHand([], coin, w) == 0.0
  {
  }

  lemma WorthAtOne(qty: real, unit: real)
    requires unit == 1.0
    ensures Worth(qty, unit) == qty
  {
  }

  lemma {:induction false} WeighedByOne(ms: seq<MatchedTrade>)
    ensures Over(ms, Weighed(One)) == Over(ms, Qty)
  {
    if ms != [] {
      WeighedByOne(ms[..|ms| - 1]);
      WorthAtOne(ms[|ms| - 1].qty, One(ms[|ms| - 1].buyPrice));
    }
  }

  /** What was matched is what was sold, and the dust is at most 1e-10 a sell. */
  lemma {:induction false} SoldAndDust(h: seq<Fill>, coin: string)
    ensures Matched(h, coin, One) == Sold(h, coin)
    ensures 0.0 <= DustLost(h, coin, One) <= 0.0000000001 * Sells(h, coin) as real
  {
    hide Upper, Over, Dropped, Left, Matches, Held;
    if h != [] {
      var before, f := h[..|h| - 1], h[|h| - 1];
      SoldAndDust(before, coin);
      if Accepted(before, f, "SELL", coin) {
        SellIsMatchedExactly(Books(before), f, coin);
        WeighedByOne(Booked(Books(before), f).1.value);
        DustIsBounded(Books(before), f.qty, coin, |Books(before)|);
      }
    }
  }

  /** Every coin's inventory is what was bought less what was sold, up to the dust. */
  lemma InventoryAccounted(h: seq<Fill>, coin: string)
    ensures 0.0 <= Bought(h, coin, One) - Sold(h, coin) - Inventory(Books(h), coin)
            <= 0.0000000001 * Sells(h, coin) as real
  {
    HistoryConserves(h, coin, One);
    SoldAndDust(h, coin);
  }
}
