/** treasuryforge/marketlab/fills.py: walking an order book level by level. */
module OrderBook {
  import opened Sums

  /** The walk stops once no more than this is left to fill. */
  const EPSILON: real := 0.000000000001

  datatype Level = Level(px: real, sz: real)

  ghost predicate Sized(levels: seq<Level>) {
    forall i :: 0 <= i < |levels| ==> levels[i].sz >= 0.0
  }

  /** Cheapest first. */
  ghost predicate Ascending(levels: seq<Level>) {
    forall i, j :: 0 <= i < j < |levels| ==> levels[i].px <= levels[j].px
  }

  ghost predicate Descending(levels: seq<Level>) {
    forall i, j :: 0 <= i < j < |levels| ==> levels[i].px >= levels[j].px
  }

  function Depth(levels: seq<Level>): real {
    if levels == [] then 0.0 else levels[0].sz + Depth(levels[1..])
  }

  // ---- ways to take a quantity from the levels ------------------------------------------

  ghost predicate Allocation(levels: seq<Level>, t: seq<real>) {
    |t| == |levels| && forall i :: 0 <= i < |t| ==> 0.0 <= t[i] <= levels[i].sz
  }

  function Amount(t: seq<real>): real {
    if t == [] then 0.0 else t[0] + Amount(t[1..])
  }

  function Cost(levels: seq<Level>, t: seq<real>): real
    requires |t| == |levels|
  {
    if t == [] then 0.0 else Times(t[0], levels[0].px) + Cost(levels[1..], t[1..])
  }

  function Zeros(n: nat): seq<real> {
    if n == 0 then [] else [0.0] + Zeros(n - 1)
  }

  /** What the walk takes from each level. */
  function Takes(levels: seq<Level>, remaining: real): (t: seq<real>)
    ensures |t| == |levels|
  {
    if levels == [] then []
    else
      var take := Min(remaining, levels[0].sz);
      ZerosLength(|levels| - 1);
      [take] + if remaining - take <= EPSILON then Zeros(|levels| - 1) else Takes(levels[1..], remaining - take)
  }

  lemma {:induction false} ZerosLength(n: nat)
    ensures |Zeros(n)| == n
  {
    if n > 0 {
      ZerosLength(n - 1);
    }
  }

  method WalkBook(levels: seq<Level>, size: real) returns (vwap: real, filled: real)
    ensures filled == Amount(Takes(levels, size))
    ensures vwap == if filled > 0.0 then Cost(levels, Takes(levels, size)) / filled else 0.0
  {
    hide Takes, Cost, Amount, Times;
    var remaining, cost := size, 0.0;
    filled := 0.0;
    var i, stop := 0, false;
    assert levels[0..] == levels;
    while i < |levels| && !stop
      invariant 0 <= i <= |levels|
      invariant !stop ==> filled + Amount(Takes(levels[i..], remaining)) == Amount(Takes(levels, size))
      invariant !stop ==> cost + Cost(levels[i..], Takes(levels[i..], remaining)) == Cost(levels, Takes(levels, size))
      invariant stop ==> filled == Amount(Takes(levels, size)) && cost == Cost(levels, Takes(levels, size))
      decreases |levels| - i, !stop
    {
      var lvl := levels[i];
      var take := Min(remaining, lvl.sz);
      WalkOne(levels[i..], remaining);
      assert levels[i..][1..] == levels[i + 1..];
      cost := cost + Times(take, lvl.px);
      filled := filled + take;
      remaining := remaining - take;
      if remaining <= EPSILON {
        stop := true;
      } else {
        i := i + 1;
      }
    }
    NothingTaken(levels[i..], remaining, !stop);
    vwap := if filled > 0.0 then cost / filled else 0.0;
  }

  lemma NothingTaken(levels: seq<Level>, left: real, atEnd: bool)
    requires atEnd ==> levels == []
    ensures atEnd ==> Amount(Takes(levels, left)) == 0.0 && Cost(levels, Takes(levels, left)) == 0.0
  {
  }

  /** Unfolding one level of the walk. */
  lemma WalkOne(levels: seq<Level>, remaining: real)
    requires levels != []
    ensures var take := Min(remaining, levels[0].sz);
      var left := remaining - take;
      && Amount(Takes(levels, remaining)) == take + (if left <= EPSILON then 0.0 else Amount(Takes(levels[1..], left)))
      && Cost(levels, Takes(levels, remaining)) == Times(take, levels[0].px)
         + (if left <= EPSILON then 0.0 else Cost(levels[1..], Takes(levels[1..], left)))
  {
    var take := Min(remaining, levels[0].sz);
    ZerosLength(|levels| - 1);
    if remaining - take <= EPSILON {
      AmountOfZeros(|levels| - 1);
      CostOfZeros(levels[1..]);
      assert ([take] + Zeros(|levels| - 1))[1..] == Zeros(|levels| - 1);
    } else {
      var rest := Takes(levels[1..], remaining - take);
      assert ([take] + rest)[1..] == rest;
    }
  }

  lemma {:induction false} AmountOfZeros(n: nat)
    ensures Amount(Zeros(n)) == 0.0
  {
    if n > 0 {
      assert ([0.0] + Zeros(n - 1))[1..] == Zeros(n - 1);
      AmountOfZeros(n - 1);
    }
  }

  lemma {:induction false} CostOfZeros(levels: seq<Level>)
    ensures |Zeros(|levels|)| == |levels| && Cost(levels, Zeros(|levels|)) == 0.0
  {
    ZerosLength(|levels|);
    if levels != [] {
      assert ([0.0] + Zeros(|levels| - 1))[1..] == Zeros(|levels| - 1);
      CostOfZeros(levels[1..]);
    }
  }

  // ---- how much is filled -------------------------------------------------------------------

  lemma {:induction false} DepthNonneg(levels: seq<Level>)
    requires Sized(levels)
    ensures Depth(levels) >= 0.0
  {
    if levels != [] {
      DepthNonneg(levels[1..]);
    }
  }

  /** The walk takes within the levels, and fills min(size, depth) to within 1e-12. */
  lemma {:induction false} FillsWhatItCan(levels: seq<Level>, size: real)
    requires Sized(levels) && size >= 0.0
    ensures Allocation(levels, Takes(levels, size))
    ensures Min(size, Depth(levels)) - 0.000000000001 <= Amount(Takes(levels, size)) <= Min(size, Depth(levels))
  {
    if levels != [] {
      var take := Min(size, levels[0].sz);
      WalkOne(levels, size);
      DepthNonneg(levels[1..]);
      ZerosLength(|levels| - 1);
      ZerosAreZero(|levels| - 1);
      if size - take > EPSILON {
        FillsWhatItCan(levels[1..], size - take);
      }
    }
  }

  lemma {:induction false} ZerosAreZero(n: nat)
    ensures |Zeros(n)| == n && forall i :: 0 <= i < n ==> Zeros(n)[i] == 0.0
  {
    if n > 0 {
      ZerosAreZero(n - 1);
    }
  }

  // ---- at the least cost -----------------------------------------------------------------------

  /** The price of the last level the walk touches. */
  function LastPrice(levels: seq<Level>, size: real): real
    requires levels != []
  {
    if size - Min(size, levels[0].sz) <= EPSILON || |levels| == 1 then levels[0].px
    else LastPrice(levels[1..], size - Min(size, levels[0].sz))
  }

  lemma {:induction false} LastPriceIsLater(levels: seq<Level>, size: real)
    requires levels != [] && Ascending(levels)
    ensures LastPrice(levels, size) >= levels[0].px
  {
    if !(size - Min(size, levels[0].sz) <= EPSILON || |levels| == 1) {
      LastPriceIsLater(levels[1..], size - Min(size, levels[0].sz));
    }
  }

  /** Levels at or above a price cost at least that price. */
  lemma {:induction false} CostAtLeast(levels: seq<Level>, t: seq<real>, price: real)
    requires Allocation(levels, t) && forall i :: 0 <= i < |levels| ==> levels[i].px >= price
    ensures Cost(levels, t) >= Times(Amount(t), price)
  {
    if t != [] {
      CostAtLeast(levels[1..], t[1..], price);
      TimesMonotone(t[0], price, levels[0].px);
      TimesAdds(t[0], Amount(t[1..]), price);
    }
  }

  /** Against any other way: the difference in cost is at least the difference in amount
      at the last price the walk pays. */
  lemma {:induction false} WalkIsCheapestAtTheMargin(levels: seq<Level>, size: real, t: seq<real>)
    requires Sized(levels) && Ascending(levels) && size >= 0.0 && levels != [] && Allocation(levels, t)
    ensures Cost(levels, t) - Cost(levels, Takes(levels, size))
         >= Times(Amount(t) - Amount(Takes(levels, size)), LastPrice(levels, size))
  {
    hide Times, Takes;
    var first, take, rest, u := levels[0], Min(size, levels[0].sz), levels[1..], t[1..];
    var left, last := size - Min(size, levels[0].sz), LastPrice(levels, size);
    WalkOne(levels, size);
    TimesAdds(t[0] - take, Amount(u) - (if left <= EPSILON then 0.0 else Amount(Takes(rest, left))), last);
    TimesAdds(t[0], take, first.px);
    TimesAdds(t[0], take, last);
    if left <= EPSILON {
      CostAtLeast(rest, u, first.px);
    } else if |levels| == 1 {
      NothingTaken(rest, left, true);
      assert u == [];
    } else {
      WalkIsCheapestAtTheMargin(rest, left, u);
      LastPriceIsLater(levels, size);
      // the first level is used up, and no dearer than the last
      TimesMonotone(take - t[0], first.px, last);
      TimesAdds(take, t[0], first.px);
      TimesAdds(take, t[0], last);
    }
  }

  /** No way of taking the same quantity from the levels is cheaper. */
  lemma WalkIsCheapest(levels: seq<Level>, size: real, t: seq<real>)
    requires Sized(levels) && Ascending(levels) && size >= 0.0 && Allocation(levels, t)
    requires Amount(t) == Amount(Takes(levels, size))
    ensures Cost(levels, Takes(levels, size)) <= Cost(levels, t)
  {
    if levels != [] {
      WalkIsCheapestAtTheMargin(levels, size, t);
      TimesAdds(0.0, 0.0, LastPrice(levels, size));
    }
  }

  /** The same book with prices turned round. */
  ghost function Turned(levels: seq<Level>): (out: seq<Level>)
    ensures |out| == |levels|
    ensures forall i :: 0 <= i < |levels| ==> out[i] == Level(-levels[i].px, levels[i].sz)
  {
    if levels == [] then [] else [Level(-levels[0].px, levels[0].sz)] + Turned(levels[1..])
  }

  lemma {:induction false} TurnedWalk(levels: seq<Level>, size: real, t: seq<real>)
    requires |t| == |levels|
    ensures Takes(Turned(levels), size) == Takes(levels, size)
    ensures Cost(Turned(levels), t) == -Cost(levels, t)
  {
    if levels != [] {
      assert Turned(levels)[1..] == Turned(levels[1..]);
      TurnedWalk(levels[1..], size - Min(size, levels[0].sz), t[1..]);
      var q, p := t[0], levels[0].px;
      assert Times(q, -p) == -Times(q, p);
    }
  }

  /** Selling into the bids: no way of selling the same quantity brings in more. */
  lemma WalkIsDearest(levels: seq<Level>, size: real, t: seq<real>)
    requires Sized(levels) && Descending(levels) && size >= 0.0 && Allocation(levels, t)
    requires Amount(t) == Amount(Takes(levels, size))
    ensures Cost(levels, Takes(levels, size)) >= Cost(levels, t)
  {
    TurnedWalk(levels, size, t);
    TurnedWalk(levels, size, Takes(levels, size));
    WalkIsCheapest(Turned(levels), size, t);
  }

  // ---- the average price never falls with size -----------------------------------------------------

  /** A larger order takes at least as much from every level. */
  lemma {:induction false} LargerTakesMore(levels: seq<Level>, small: real, large: real)
    requires Sized(levels) && 0.0 <= small <= large
    ensures Amount(Takes(levels, small)) <= Amount(Takes(levels, large))
  {
    if levels != [] {
      WalkOne(levels, small);
      WalkOne(levels, large);
      var s, l := small - Min(small, levels[0].sz), large - Min(large, levels[0].sz);
      if s > EPSILON {
        LargerTakesMore(levels[1..], s, l);
      } else if l > EPSILON {
        FillsWhatItCan(levels[1..], l);
        AmountNonneg(levels[1..], Takes(levels[1..], l));
      }
    }
  }

  lemma {:induction false} AmountNonneg(levels: seq<Level>, t: seq<real>)
    requires Allocation(levels, t)
    ensures Amount(t) >= 0.0
  {
    if t != [] {
      AmountNonneg(levels[1..], t[1..]);
    }
  }

  function Scaled(t: seq<real>, c: real): (u: seq<real>)
    ensures |u| == |t|
  {
    if t == [] then [] else [Times(t[0], c)] + Scaled(t[1..], c)
  }

  /** Shrinking an allocation shrinks its amount and its cost in proportion. */
  lemma {:induction false} ScaledAllocation(levels: seq<Level>, t: seq<real>, c: real)
    requires Allocation(levels, t) && 0.0 <= c <= 1.0
    ensures Allocation(levels, Scaled(t, c))
    ensures Amount(Scaled(t, c)) == Times(Amount(t), c)
    ensures Cost(levels, Scaled(t, c)) == Times(Cost(levels, t), c)
  {
    hide Times;
    if t == [] {
      TimesAdds(0.0, 0.0, c);
    } else {
      ScaledAllocation(levels[1..], t[1..], c);
      assert Scaled(t, c)[1..] == Scaled(t[1..], c);
      ScaledOne(t[0], c, levels[0].px);
      TimesAdds(t[0], Amount(t[1..]), c);
      TimesAdds(Times(t[0], levels[0].px), Cost(levels[1..], t[1..]), c);
    }
  }

  lemma ScaledOne(q: real, c: real, p: real)
    requires q >= 0.0 && 0.0 <= c <= 1.0
    ensures 0.0 <= Times(q, c) <= q
    ensures Times(Times(q, c), p) == Times(Times(q, p), c)
  {
    assert q * c <= q * 1.0;
    assert (q * c) * p == (q * p) * c;
  }

  /** The volume-weighted price of a larger order is at least that of a smaller one. */
  lemma VwapNeverFalls(levels: seq<Level>, small: real, large: real)
    requires Sized(levels) && Ascending(levels) && 0.0 <= small <= large
    requires Amount(Takes(levels, small)) > 0.0
    ensures Amount(Takes(levels, large)) > 0.0
    ensures Cost(levels, Takes(levels, small)) / Amount(Takes(levels, small))
         <= Cost(levels, Takes(levels, large)) / Amount(Takes(levels, large))
  {
    hide Times, Takes, Cost, Amount, Allocation;
    var t := Takes(levels, large);
    var a, b := Amount(Takes(levels, small)), Amount(t);
    LargerTakesMore(levels, small, large);
    FillsWhatItCan(levels, large);
    var c := a / b;
    FractionOf(a, b);
    // the larger order scaled down to the smaller one's amount is one way to fill it
    ScaledAllocation(levels, t, c);
    WalkIsCheapest(levels, small, Scaled(t, c));
    QuotientsCompare(Cost(levels, Takes(levels, small)), a, Cost(levels, t), b, c);
  }

  /** And a larger sell never does better on average. */
  lemma VwapNeverRises(levels: seq<Level>, small: real, large: real)
    requires Sized(levels) && Descending(levels) && 0.0 <= small <= large
    requires Amount(Takes(levels, small)) > 0.0
    ensures Amount(Takes(levels, large)) > 0.0
    ensures Cost(levels, Takes(levels, small)) / Amount(Takes(levels, small))
         >= Cost(levels, Takes(levels, large)) / Amount(Takes(levels, large))
  {
    hide Takes, Cost, Amount;
    TurnedWalk(levels, small, Takes(levels, small));
    TurnedWalk(levels, large, Takes(levels, large));
    VwapNeverFalls(Turned(levels), small, large);
    NegativeQuotient(Cost(levels, Takes(levels, small)), Amount(Takes(levels, small)));
    NegativeQuotient(Cost(levels, Takes(levels, large)), Amount(Takes(levels, large)));
  }

  lemma NegativeQuotient(a: real, b: real)
    requires b > 0.0
    ensures -a / b == -(a / b)
  {
    var q := a / b;
    assert (-q) * b == -a;
    CancelFactor(b, -q);
  }

  lemma FractionOf(a: real, b: real)
    requires 0.0 < a <= b
    ensures 0.0 <= a / b <= 1.0 && Times(b, a / b) == a
  {
    var c := a / b;
    assert c * b == a;
    if c > 1.0 {
      PositiveProduct(c - 1.0, b);
    }
    if c < 0.0 {
      PositiveProduct(-c, b);
    }
  }

  lemma QuotientsCompare(x: real, a: real, y: real, b: real, c: real)
    requires a > 0.0 && b > 0.0 && Times(b, c) == a && x <= Times(y, c)
    ensures x / a <= y / b
  {
    var q, r := x / a, y / b;
    assert q * a == x && r * b == y;
    assert y * c == (r * b) * c == r * (b * c);
    assert q * a <= r * a;
    if q > r {
      PositiveProduct(q - r, a);
    }
  }

  // ---- MatchingFillModel ------------------------------------------------------------------------------

  /** The sort key: best asks are cheapest, best bids dearest. */
  function Key(x: Level, asks: bool): real {
    if asks then x.px else -x.px
  }

  /** Insert before the first level that is not better; sorting this way is stable. */
  function Insert(x: Level, levels: seq<Level>, asks: bool): seq<Level> {
    if levels == [] || Key(x, asks) <= Key(levels[0], asks) then [x] + levels
    else [levels[0]] + Insert(x, levels[1..], asks)
  }

  function BestFirst(levels: seq<Level>, asks: bool): (best: seq<Level>)
    ensures levels != [] ==> best != []
  {
    if levels == [] then [] else Insert(levels[0], BestFirst(levels[1..], asks), asks)
  }

  ghost predicate Sorted(levels: seq<Level>, asks: bool) {
    forall i, j :: 0 <= i < j < |levels| ==> Key(levels[i], asks) <= Key(levels[j], asks)
  }

  lemma {:induction false} InsertPermutes(x: Level, levels: seq<Level>, asks: bool)
    ensures multiset(Insert(x, levels, asks)) == multiset(levels) + multiset{x}
  {
    if levels != [] && Key(x, asks) > Key(levels[0], asks) {
      InsertPermutes(x, levels[1..], asks);
      assert levels == [levels[0]] + levels[1..];
    }
  }

  lemma {:induction false} InsertSorts(x: Level, levels: seq<Level>, asks: bool)
    requires Sorted(levels, asks)
    ensures Sorted(Insert(x, levels, asks), asks)
  {
    if levels != [] && Key(x, asks) > Key(levels[0], asks) {
      var rest := Insert(x, levels[1..], asks);
      InsertSorts(x, levels[1..], asks);
      InsertPermutes(x, levels[1..], asks);
      forall i | 0 <= i < |rest| ensures Key(levels[0], asks) <= Key(rest[i], asks) {
        assert rest[i] in multiset(rest);
        if rest[i] != x {
          assert rest[i] in multiset(levels[1..]);
        }
      }
    }
  }

  /** The book is put best first without losing or inventing a level. */
  lemma {:induction false} BestFirstSorts(levels: seq<Level>, asks: bool)
    ensures Sorted(BestFirst(levels, asks), asks) && multiset(BestFirst(levels, asks)) == multiset(levels)
    ensures if asks then Ascending(BestFirst(levels, asks)) else Descending(BestFirst(levels, asks))
  {
    if levels != [] {
      BestFirstSorts(levels[1..], asks);
      InsertSorts(levels[0], BestFirst(levels[1..], asks), asks);
      InsertPermutes(levels[0], BestFirst(levels[1..], asks), asks);
      assert levels == [levels[0]] + levels[1..];
    }
  }

  datatype FillResult = FillResult(vwap: real, filled: real, requested: real, mid: real, slippage: real, partial: bool)

  /** A fill, or one of the two exceptions. */
  datatype FillOutcome = EmptySide | ZeroMid | Filled(fill: FillResult)

  /** The raw slippage, before it is clamped at zero. */
  function RawSlippage(vwap: real, mid: real, buy: bool): real
    requires mid != 0.0
  {
    if buy then (vwap - mid) / mid else (mid - vwap) / mid
  }

  ghost predicate FillOf(side: seq<Level>, mid: real, buy: bool, size: real, r: FillResult) {
    var t := Takes(side, size);
    && r.filled == Amount(t) && r.requested == size && r.mid == mid && mid != 0.0
    && r.vwap == (if r.filled > 0.0 then Cost(side, t) / r.filled else 0.0)
    && r.slippage == Max(RawSlippage(r.vwap, mid, buy), 0.0)
    && (r.partial <==> r.filled < size - EPSILON)
  }

  method Fill(rawBids: seq<Level>, rawAsks: seq<Level>, buy: bool, size: real) returns (res: FillOutcome)
    ensures res.EmptySide? <==> rawBids == [] || rawAsks == []
    ensures !res.EmptySide? ==>
              var bids, asks := BestFirst(rawBids, false), BestFirst(rawAsks, true);
              var mid := (bids[0].px + asks[0].px) / 2.0;
              if mid == 0.0 then res.ZeroMid?
              else res.Filled? && FillOf(if buy then asks else bids, mid, buy, size, res.fill)
  {
    if rawBids == [] || rawAsks == [] {
      return EmptySide;
    }
    var bids, asks := BestFirst(rawBids, false), BestFirst(rawAsks, true);
    var mid := (bids[0].px + asks[0].px) / 2.0;
    var vwap, filled := WalkBook(if buy then asks else bids, size);
    if mid == 0.0 {
      return ZeroMid;
    }
    var slip := if buy then (vwap - mid) / mid else (mid - vwap) / mid;
    return Filled(FillResult(vwap, filled, size, mid, Max(slip, 0.0), filled < size - EPSILON));
  }

  /** Levels at or below a price bring in at most that price. */
  lemma {:induction false} CostAtMost(levels: seq<Level>, t: seq<real>, price: real)
    requires Allocation(levels, t) && forall i :: 0 <= i < |levels| ==> levels[i].px <= price
    ensures Cost(levels, t) <= Times(Amount(t), price)
  {
    if t != [] {
      CostAtMost(levels[1..], t[1..], price);
      TimesMonotone(t[0], levels[0].px, price);
      TimesAdds(t[0], Amount(t[1..]), price);
    }
  }

  lemma QuotientBounds(cost: real, amount: real, price: real)
    requires amount > 0.0
    ensures cost >= Times(amount, price) ==> cost / amount >= price
    ensures cost <= Times(amount, price) ==> cost / amount <= price
  {
    var q := cost / amount;
    assert q * amount == cost;
    if q < price {
      assert (price - q) * amount > 0.0;
    }
    if q > price {
      assert (q - price) * amount > 0.0;
    }
  }

  /** On an uncrossed book a nonempty fill never beats the mid: the clamp is idle. */
  lemma SlippageIsAdverse(bids: seq<Level>, asks: seq<Level>, buy: bool, size: real, vwap: real)
    requires bids != [] && asks != [] && Descending(bids) && Ascending(asks) && Sized(bids) && Sized(asks)
    requires 0.0 < bids[0].px <= asks[0].px && size >= 0.0
    requires var side := if buy then asks else bids;
      Amount(Takes(side, size)) > 0.0 && vwap == Cost(side, Takes(side, size)) / Amount(Takes(side, size))
    ensures RawSlippage(vwap, (bids[0].px + asks[0].px) / 2.0, buy) >= 0.0
  {
    var side := if buy then asks else bids;
    var t, mid := Takes(side, size), (bids[0].px + asks[0].px) / 2.0;
    FillsWhatItCan(side, size);
    if buy {
      CostAtLeast(side, t, asks[0].px);
    } else {
      CostAtMost(side, t, bids[0].px);
    }
    QuotientBounds(Cost(side, t), Amount(t), side[0].px);
    QuotientNonneg(if buy then vwap - mid else mid - vwap, mid);
  }

  lemma SlippageOfNothing(mid: real)
    requires mid > 0.0
    ensures RawSlippage(0.0, mid, false) == 1.0 && RawSlippage(0.0, mid, true) == -1.0
  {
    CancelFactor(mid, 1.0);
    CancelFactor(mid, -1.0);
    assert mid * -1.0 == 0.0 - mid;
  }

  lemma {:induction false} NoDepthNoSize(levels: seq<Level>)
    requires Sized(levels)
    ensures Depth(levels) >= 0.0
    ensures Depth(levels) == 0.0 <==> forall i :: 0 <= i < |levels| ==> levels[i].sz == 0.0
  {
    if levels != [] {
      NoDepthNoSize(levels[1..]);
    }
  }

  /** Levels of size zero do not stop a walk. */
  lemma {:induction false} DepthIsReached(levels: seq<Level>, size: real)
    requires Sized(levels) && size > EPSILON && Depth(levels) > 0.0
    ensures Amount(Takes(levels, size)) > 0.0
  {
    WalkOne(levels, size);
    if levels[0].sz == 0.0 {
      DepthIsReached(levels[1..], size);
    } else if size - Min(size, levels[0].sz) > EPSILON {
      FillsWhatItCan(levels[1..], size - Min(size, levels[0].sz));
      AmountNonneg(levels[1..], Takes(levels[1..], size - Min(size, levels[0].sz)));
    }
  }

  /** When a walk fills nothing.  A size of at most 1e-12 stops at the first level, whatever
      depth follows it. */
  lemma EmptyWalkIff(levels: seq<Level>, size: real)
    requires Sized(levels) && levels != []
    ensures Amount(Takes(levels, size)) <= 0.0
       <==> size <= 0.0 || (if size <= 0.000000000001 then levels[0].sz == 0.0 else Depth(levels) == 0.0)
  {
    NoDepthNoSize(levels);
    NoDepthNoSize(levels[1..]);
    WalkOne(levels, size);
    if size > EPSILON {
      FillsWhatItCan(levels, size);
      if Depth(levels) > 0.0 {
        DepthIsReached(levels, size);
      }
    }
  }

  lemma PartOf(x: real, mid: real)
    requires mid != 0.0
    ensures Times(x / mid, mid) == x
  {
  }

  /** A fill on an uncrossed book: it is empty exactly as the walk is; then its price counts
      as 0, a sell reports a slippage of 100% and a buy none; and the clamp at zero changes
      the reported slippage exactly for an empty buy. */
  lemma FillSlippage(bids: seq<Level>, asks: seq<Level>, buy: bool, size: real, r: FillResult)
    requires bids != [] && asks != [] && Descending(bids) && Ascending(asks) && Sized(bids) && Sized(asks)
    requires 0.0 < bids[0].px <= asks[0].px
    requires FillOf(if buy then asks else bids, (bids[0].px + asks[0].px) / 2.0, buy, size, r)
    ensures var side := if buy then asks else bids;
      r.filled <= 0.0
      <==> size <= 0.0 || (if size <= 0.000000000001 then side[0].sz == 0.0 else Depth(side) == 0.0)
    ensures r.filled <= 0.0 ==> r.vwap == 0.0 && r.slippage == if buy then 0.0 else 1.0
    ensures r.slippage == RawSlippage(r.vwap, r.mid, buy) <==> r.filled > 0.0 || !buy
    // what is given up a unit, as a part of the mid price halfway between the best prices
    ensures r.mid > 0.0 && r.mid - bids[0].px == asks[0].px - r.mid
    ensures r.filled > 0.0 ==> Times(r.slippage, r.mid) == if buy then r.vwap - r.mid else r.mid - r.vwap
    ensures r.requested == size && (r.partial <==> r.filled < size - 0.000000000001)
  {
    hide Takes, Amount, Cost, Depth;
    var side := if buy then asks else bids;
    EmptyWalkIff(side, size);
    SlippageOfNothing(r.mid);
    if r.filled > 0.0 {
      SlippageIsAdverse(bids, asks, buy, size, r.vwap);
      PartOf(r.vwap - r.mid, r.mid);
      PartOf(r.mid - r.vwap, r.mid);
    }
  }
}
