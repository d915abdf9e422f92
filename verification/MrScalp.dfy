/** treasuryforge/backtest/mr_scalp_backtest.py: the main loop of the mean-reversion
    backtest, for any indicator whatever. */
module MrScalp {
  import opened Sums
  import opened Wrappers

  datatype Bar = Bar(o: real, h: real, l: real, c: real, ts: int)

  datatype Params = Params(tpNet: real, sl: real, zExit: real, maxHoldBars: int, margin: real)

  datatype CostModel = CostModel(makerFee: real, takerFee: real, spread: real, slippage: real) {
    function RoundTripEstimate(): real {
      2.0 * takerFee + spread + 2.0 * slippage
    }
  }

  /** What the indicator says once a bar has closed: nothing while warming up. */
  datatype Signal = Signal(vwap: real, zscore: real, entryOk: bool)

  datatype Reason = SL | TP | ZEXIT | TIME

  datatype Trade = Trade(entryTs: int, exitTs: int, entryPrice: real, exitPrice: real, barsHeld: int,
                         reason: Reason, net: real, gross: real)

  datatype MrScalpResult = MrScalpResult(trades: seq<Trade>, nBars: int, nSignaled: int, nCostSkipped: int,
                                         nPlaced: int,
                           nFilled: int, nMissed: int, missedWinners: int, drifts: seq<real>,
                           postFillDrift: real)

  /** The holding limit is at least one bar, and no bid is 0 because of the spread; the code
      divides by the entry price with the maker fee on it. */
  predicate Sane(p: Params, cost: CostModel) {
    p.maxHoldBars >= 1 && cost.makerFee != -1.0 && cost.spread != 2.0
  }

  /** A close that a signal is judged by is not 0: the code divides by it. */
  ghost predicate NonzeroCloses(bars: seq<Bar>, sigs: seq<Option<Signal>>) {
    forall i :: 0 <= i < |bars| && i < |sigs| && Signaled(sigs, i) ==> bars[i].c != 0.0
  }

  /** Prices are positive and no fee or slippage eats more than the whole. */
  ghost predicate Ordinary(bars: seq<Bar>, p: Params, cost: CostModel) {
    && (forall i :: 0 <= i < |bars| ==> bars[i].c > 0.0)
    && p.sl >= -1.0 && p.tpNet >= 0.0
    && 0.0 <= cost.makerFee <= 1.0 && 0.0 <= cost.takerFee <= 1.0 && 0.0 <= cost.slippage <= 1.0
    && 0.0 <= cost.spread < 2.0
  }

  // ---- the rules, stated on the series -----------------------------------------------------

  /** The bid that would rest after bar i closes. */
  function BidAfter(bars: seq<Bar>, cost: CostModel, i: nat): real
    requires i < |bars|
  {
    bars[i].c * (1.0 - cost.spread / 2.0)
  }

  /** The indicator before bar i, which is what it said after the bar before. */
  function Before(sigs: seq<Option<Signal>>, i: nat): Option<Signal>
    requires i <= |sigs|
  {
    if i == 0 then None else sigs[i - 1]
  }

  function StopLevel(entry: real, p: Params): real {
    entry * (1.0 + p.sl)
  }

  function TargetLevel(entry: real, p: Params, cost: CostModel): real {
    entry * (1.0 + p.tpNet + 2.0 * cost.makerFee)
  }

  /** A market exit gives up the slippage. */
  function Slipped(px: real, cost: CostModel): real {
    px * (1.0 - cost.slippage)
  }

  /** The exit price and reason bar j gives a position entered on bar e, if any: the stop
      is assumed first. */
  function ExitOn(bars: seq<Bar>, sigs: seq<Option<Signal>>, p: Params, cost: CostModel, entry: real, e: nat, j: nat)
      : Option<(real, Reason)>
    requires e < j < |bars| && |sigs| == |bars|
  {
    var sl, tp := StopLevel(entry, p), TargetLevel(entry, p, cost);
    var cur := Before(sigs, j);
    if bars[j].l <= sl then Some((Slipped(sl, cost), SL))
    else if bars[j].h >= tp then Some((tp, TP))
    else if cur.Some? && cur.value.zscore >= p.zExit then Some((Slipped(bars[j].c, cost), ZEXIT))
    else if j - e >= p.maxHoldBars then Some((Slipped(bars[j].c, cost), TIME))
    else None
  }

  function ExitFee(reason: Reason, cost: CostModel): real {
    if reason == TP then cost.makerFee else cost.takerFee
  }

  function Gross(px: real, entry: real): real
    requires entry != 0.0
  {
    (px - entry) / entry
  }

  function Net(px: real, entry: real, exitFee: real, makerFee: real): real
    requires entry != 0.0 && makerFee != -1.0
  {
    assert entry * (1.0 + makerFee) != 0.0 by {
      NonzeroProduct(entry, 1.0 + makerFee);
    }
    (px * (1.0 - exitFee)) / (entry * (1.0 + makerFee)) - 1.0
  }

  /** A trade the rules allow: the bid placed on the close of bar e-1 is traded through on
      bar e, no later bar before x gives an exit, and bar x gives this one. */
  ghost predicate Follows(t: Trade, e: nat, x: nat, bars: seq<Bar>, sigs: seq<Option<Signal>>, p: Params,
                          cost: CostModel) {
    && 1 <= e < x < |bars| == |sigs|
    && t.entryPrice == BidAfter(bars, cost, e - 1) && bars[e].l <= t.entryPrice
    && Placed(bars, sigs, p, cost, e - 1)
    && (forall j :: e < j < x ==> ExitOn(bars, sigs, p, cost, t.entryPrice, e, j) == None)
    && ExitOn(bars, sigs, p, cost, t.entryPrice, e, x) == Some((t.exitPrice, t.reason))
    && t.barsHeld == x - e && t.entryTs == bars[e].ts && t.exitTs == bars[x].ts
    && t.entryPrice != 0.0 && cost.makerFee != -1.0
    && t.gross == Gross(t.exitPrice, t.entryPrice)
    && t.net == Net(t.exitPrice, t.entryPrice, ExitFee(t.reason, cost), cost.makerFee)
  }

  /** The signal after bar i allows an entry, and the expected snap-back pays for it. */
  predicate Signaled(sigs: seq<Option<Signal>>, i: nat)
    requires i < |sigs|
  {
    sigs[i].Some? && sigs[i].value.entryOk
  }

  predicate Placed(bars: seq<Bar>, sigs: seq<Option<Signal>>, p: Params, cost: CostModel, i: nat)
    requires i < |bars| == |sigs|
  {
    Signaled(sigs, i) && bars[i].c != 0.0
    && (sigs[i].value.vwap - bars[i].c) / bars[i].c > cost.RoundTripEstimate() + p.margin
  }

  // ---- what a completed run guarantees ------------------------------------------------------------

  /** Trades in order, one at a time, each within the holding limit. */
  ghost predicate Disjoint(es: seq<nat>, xs: seq<nat>, max: int) {
    && |es| == |xs|
    && (forall k :: 0 <= k < |es| ==> 1 <= xs[k] - es[k] <= max)
    && (forall k :: 0 <= k < |es| - 1 ==> xs[k] < es[k + 1])
  }

  ghost predicate AllFollow(ts: seq<Trade>, es: seq<nat>, xs: seq<nat>, bars: seq<Bar>, sigs: seq<Option<Signal>>,
                            p: Params, cost: CostModel) {
    |ts| == |es| == |xs| && forall k :: 0 <= k < |ts| ==> Follows(ts[k], es[k], xs[k], bars, sigs, p, cost)
  }

  /** Every signal is either skipped or placed, every bid filled, missed or resting, every
      fill a trade or open. */
  predicate Balanced(r: MrScalpResult, resting: bool, open: bool) {
    && r.nSignaled == r.nCostSkipped + r.nPlaced
    && r.nPlaced == r.nFilled + r.nMissed + (if resting then 1 else 0)
    && r.nFilled == |r.trades| + (if open then 1 else 0)
    && 0 <= r.missedWinners <= r.nMissed && |r.drifts| == r.nFilled
  }

  datatype Position = Position(ts: int, entry: real, bars: int)

  /** The open position, and the bar it was filled on. */
  ghost predicate Open(pos: Position, e: nat, i: nat, bars: seq<Bar>, sigs: seq<Option<Signal>>, p: Params,
                       cost: CostModel) {
    && 1 <= e < i <= |bars| == |sigs| && pos.bars == i - 1 - e && pos.ts == bars[e].ts
    && pos.entry == BidAfter(bars, cost, e - 1) && bars[e].l <= pos.entry
    && Placed(bars, sigs, p, cost, e - 1)
    && (forall j :: e < j < i ==> ExitOn(bars, sigs, p, cost, pos.entry, e, j) == None)
  }

  /** The loop's state before bar i; done tells whether its exits and its resting bid
      have already been dealt with on that bar. */
  ghost predicate Stands(res: MrScalpResult, bid: Option<real>, pos: Option<Position>, es: seq<nat>, xs: seq<nat>,
                         e: nat,
                         i: nat, done: bool, bars: seq<Bar>, sigs: seq<Option<Signal>>, p: Params, cost: CostModel)
    requires Sane(p, cost)
  {
    var next := if done then i + 1 else i;
    && |sigs| == |bars| && next <= |bars| && NonzeroCloses(bars, sigs)
    && res.nBars == next && Balanced(res, bid.Some?, pos.Some?) && !(bid.Some? && pos.Some?) && (done ==> bid.None?)
    && (bid.Some? ==> i > 0 && bid.value == BidAfter(bars, cost, i - 1) && Placed(bars, sigs, p, cost, i - 1))
    && (pos.Some? ==> Open(pos.value, e, next, bars, sigs, p, cost))
    && AllFollow(res.trades, es, xs, bars, sigs, p, cost) && Disjoint(es, xs, p.maxHoldBars)
    && (forall k :: 0 <= k < |xs| ==> xs[k] < if pos.Some? then e else next)
  }

  // ---- the rules once more, on bars, parameters and trades alone ----------------------------------

  /** The bid after bar i: its close less half the spread. */
  ghost function RestsAt(bars: seq<Bar>, cost: CostModel, i: nat): real
    requires i < |bars|
  {
    bars[i].c * (1.0 - cost.spread / 2.0)
  }

  /** A signal whose expected snap-back to the vwap pays for two taker fees, the spread, twice the
      slippage and the margin. */
  ghost predicate Worthwhile(bars: seq<Bar>, sigs: seq<Option<Signal>>, p: Params, cost: CostModel, i: nat)
    requires i < |bars| == |sigs|
  {
    && sigs[i].Some? && sigs[i].value.entryOk && bars[i].c != 0.0
    && (sigs[i].value.vwap - bars[i].c) / bars[i].c
       > 2.0 * cost.takerFee + cost.spread + 2.0 * cost.slippage + p.margin
  }

  /** Entered on bar e, which trades through the bid of the bar before. */
  ghost predicate Entered(t: Trade, e: nat, bars: seq<Bar>, sigs: seq<Option<Signal>>, p: Params, cost: CostModel) {
    && 1 <= e < |bars| == |sigs| && Worthwhile(bars, sigs, p, cost, e - 1)
    && t.entryPrice == RestsAt(bars, cost, e - 1) && bars[e].l <= t.entryPrice
    && t.entryTs == bars[e].ts
  }

  /** Bar j touches neither the stop nor the target, and no other rule ends the position on it. */
  ghost predicate Quiet(entry: real, e: nat, j: nat, bars: seq<Bar>, sigs: seq<Option<Signal>>, p: Params,
                        cost: CostModel)
    requires e < j < |bars| == |sigs|
  {
    && bars[j].l > entry * (1.0 + p.sl) && bars[j].h < entry * (1.0 + p.tpNet + 2.0 * cost.makerFee)
    && j - e < p.maxHoldBars && !(sigs[j - 1].Some? && sigs[j - 1].value.zscore >= p.zExit)
  }

  /** Left on bar x at this price: at the stop whenever the stop is touched, at the target only when
      it is not, and at the close when neither is. */
  ghost predicate LeftAt(entry: real, px: real, reason: Reason, e: nat, x: nat, bars: seq<Bar>,
                         sigs: seq<Option<Signal>>, p: Params, cost: CostModel)
    requires e < x < |bars| == |sigs|
  {
    var stop, target := entry * (1.0 + p.sl), entry * (1.0 + p.tpNet + 2.0 * cost.makerFee);
    var z := sigs[x - 1].Some? && sigs[x - 1].value.zscore >= p.zExit;
    match reason
    case SL => bars[x].l <= stop && px == stop * (1.0 - cost.slippage)
    case TP => bars[x].l > stop && bars[x].h >= target && px == target
    case ZEXIT => bars[x].l > stop && bars[x].h < target && z && px == bars[x].c * (1.0 - cost.slippage)
    case TIME =>
      bars[x].l > stop && bars[x].h < target && !z && x - e >= p.maxHoldBars
      && px == bars[x].c * (1.0 - cost.slippage)
  }

  /** The gross return is on the entry price.  The net one is on what was paid, the maker fee
      included, and what came back less a fee, the maker fee at the target and else the taker fee. */
  ghost predicate Returned(t: Trade, cost: CostModel) {
    var entry, fee := t.entryPrice, if t.reason == TP then cost.makerFee else cost.takerFee;
    && entry != 0.0 && t.gross == (t.exitPrice - entry) / entry
    && entry * (1.0 + cost.makerFee) != 0.0
    && Times(1.0 + t.net, Times(entry, 1.0 + cost.makerFee)) == Times(t.exitPrice, 1.0 - fee)
  }

  ghost predicate ByTheRules(t: Trade, e: nat, x: nat, bars: seq<Bar>, sigs: seq<Option<Signal>>, p: Params,
                             cost: CostModel) {
    && e < x < |bars| == |sigs| && Entered(t, e, bars, sigs, p, cost)
    && (forall j :: e < j < x ==> Quiet(t.entryPrice, e, j, bars, sigs, p, cost))
    && LeftAt(t.entryPrice, t.exitPrice, t.reason, e, x, bars, sigs, p, cost)
    && t.exitTs == bars[x].ts && t.barsHeld == x - e && Returned(t, cost)
  }

  lemma NoExitMeans(bars: seq<Bar>, sigs: seq<Option<Signal>>, p: Params, cost: CostModel, entry: real, e: nat, j: nat)
    requires e < j < |bars| == |sigs| && ExitOn(bars, sigs, p, cost, entry, e, j) == None
    ensures Quiet(entry, e, j, bars, sigs, p, cost)
  {
  }

  lemma ExitMeans(bars: seq<Bar>, sigs: seq<Option<Signal>>, p: Params, cost: CostModel, entry: real, e: nat, x: nat,
                  px: real, reason: Reason)
    requires e < x < |bars| == |sigs| && ExitOn(bars, sigs, p, cost, entry, e, x) == Some((px, reason))
    ensures LeftAt(entry, px, reason, e, x, bars, sigs, p, cost)
  {
  }

  lemma ReturnsAre(t: Trade, cost: CostModel)
    requires t.entryPrice != 0.0 && cost.makerFee != -1.0 && t.gross == Gross(t.exitPrice, t.entryPrice)
    requires t.net == Net(t.exitPrice, t.entryPrice, ExitFee(t.reason, cost), cost.makerFee)
    ensures Returned(t, cost)
  {
    hide Net, Times;
    NonzeroProduct(t.entryPrice, 1.0 + cost.makerFee);
    NetMeans(t.exitPrice, t.entryPrice, ExitFee(t.reason, cost), cost.makerFee);
  }

  lemma NetMeans(px: real, entry: real, ef: real, mf: real)
    requires entry != 0.0 && mf != -1.0
    ensures Times(1.0 + Net(px, entry, ef, mf), Times(entry, 1.0 + mf)) == Times(px, 1.0 - ef)
  {
    NonzeroProduct(entry, 1.0 + mf);
    var a, d := px * (1.0 - ef), entry * (1.0 + mf);
    var q := a / d;
    assert q * d == a;
  }

  lemma EnteredMeans(t: Trade, e: nat, x: nat, bars: seq<Bar>, sigs: seq<Option<Signal>>, p: Params, cost: CostModel)
    requires Follows(t, e, x, bars, sigs, p, cost)
    ensures Entered(t, e, bars, sigs, p, cost)
  {
    hide ExitOn, Gross, Net;
  }

  lemma FollowsTheRules(t: Trade, e: nat, x: nat, bars: seq<Bar>, sigs: seq<Option<Signal>>, p: Params,
                        cost: CostModel)
    requires Follows(t, e, x, bars, sigs, p, cost)
    ensures ByTheRules(t, e, x, bars, sigs, p, cost)
  {
    hide ExitOn, Gross, Net, Entered, Quiet, LeftAt, Returned, Placed, BidAfter;
    EnteredMeans(t, e, x, bars, sigs, p, cost);
    forall j | e < j < x ensures Quiet(t.entryPrice, e, j, bars, sigs, p, cost) {
      NoExitMeans(bars, sigs, p, cost, t.entryPrice, e, j);
    }
    ExitMeans(bars, sigs, p, cost, t.entryPrice, e, x, t.exitPrice, t.reason);
    ReturnsAre(t, cost);
  }

  /** Bar i ends inside a position. */
  ghost predicate HeldOn(es: seq<nat>, xs: seq<nat>, open: bool, e: nat, i: nat)
    requires |es| == |xs|
  {
    (open && e <= i) || exists k :: 0 <= k < |es| && es[k] <= i < xs[k]
  }

  /** No chance is let go: wherever no position was held, a worthwhile signal whose bid the next bar
      trades through opens one there. */
  ghost predicate Taken(es: seq<nat>, xs: seq<nat>, open: bool, e: nat, n: nat, bars: seq<Bar>,
                        sigs: seq<Option<Signal>>, p: Params, cost: CostModel)
  {
    && |es| == |xs| && n <= |bars| == |sigs|
    && (open ==> e < n) && (forall k :: 0 <= k < |xs| ==> xs[k] < n)
    && forall i :: 0 <= i < n - 1 && !HeldOn(es, xs, open, e, i) && Worthwhile(bars, sigs, p, cost, i)
                   && bars[i + 1].l <= RestsAt(bars, cost, i)
         ==> i + 1 in es || (open && e == i + 1)
  }

  /** Before bar i a bid rests exactly when the bar before was free and worthwhile. */
  ghost predicate BidDue(bid: Option<real>, es: seq<nat>, xs: seq<nat>, open: bool, e: nat, i: nat, bars: seq<Bar>,
                         sigs: seq<Option<Signal>>, p: Params, cost: CostModel)
    requires |es| == |xs| && i <= |bars| == |sigs|
  {
    && (bid.Some? <==> i > 0 && !HeldOn(es, xs, open, e, i - 1) && Worthwhile(bars, sigs, p, cost, i - 1))
    && (bid.Some? ==> bid.value == RestsAt(bars, cost, i - 1))
  }

  lemma NothingTaken(bars: seq<Bar>, sigs: seq<Option<Signal>>, p: Params, cost: CostModel)
    requires |bars| == |sigs|
    ensures Taken([], [], false, 0, 0, bars, sigs, p, cost) && BidDue(None, [], [], false, 0, 0, bars, sigs, p, cost)
    ensures Counted(MrScalpResult([], 0, 0, 0, 0, 0, 0, 0, [], 0.0), [], [], false, 0, 0, bars, sigs, p, cost)
  {
  }

  lemma BidDueNext(bid: Option<real>, es: seq<nat>, xs: seq<nat>, open: bool, e: nat, i: nat, bars: seq<Bar>,
                   sigs: seq<Option<Signal>>, p: Params, cost: CostModel)
    requires Taken(es, xs, open, e, i + 1, bars, sigs, p, cost) && (HeldOn(es, xs, open, e, i) <==> open)
    requires bid.Some? <==> !open && Worthwhile(bars, sigs, p, cost, i)
    requires bid.Some? ==> bid.value == RestsAt(bars, cost, i)
    ensures |es| == |xs| && BidDue(bid, es, xs, open, e, i + 1, bars, sigs, p, cost)
  {
    hide HeldOn, Worthwhile;
  }

  /** Signals on bars that end outside any position. */
  ghost function FreeSignals(es: seq<nat>, xs: seq<nat>, open: bool, e: nat, n: nat, sigs: seq<Option<Signal>>): nat
    requires |es| == |xs| && n <= |sigs|
  {
    if n == 0 then 0
    else
      var i := n - 1;
      FreeSignals(es, xs, open, e, i, sigs)
      + if !HeldOn(es, xs, open, e, i) && sigs[i].Some? && sigs[i].value.entryOk then 1 else 0
  }

  /** The worthwhile ones among them. */
  ghost function Bids(es: seq<nat>, xs: seq<nat>, open: bool, e: nat, n: nat, bars: seq<Bar>,
                      sigs: seq<Option<Signal>>, p: Params, cost: CostModel): nat
    requires |es| == |xs| && n <= |bars| == |sigs|
  {
    if n == 0 then 0
    else
      var i := n - 1;
      Bids(es, xs, open, e, i, bars, sigs, p, cost)
      + if !HeldOn(es, xs, open, e, i) && Worthwhile(bars, sigs, p, cost, i) then 1 else 0
  }

  /** Within the holding limit from bar i on some high is at the net target above the bid. */
  ghost predicate Wins(bars: seq<Bar>, p: Params, bid: real, i: nat) {
    exists j :: i <= j < i + p.maxHoldBars && j < |bars| && bars[j].h >= bid * (1.0 + p.tpNet)
  }

  /** Bids that the next bar did not trade through; or only those that would have won. */
  ghost function Misses(es: seq<nat>, xs: seq<nat>, open: bool, e: nat, n: nat, bars: seq<Bar>,
                        sigs: seq<Option<Signal>>, p: Params, cost: CostModel, winners: bool): nat
    requires |es| == |xs| && n <= |bars| == |sigs|
  {
    if n <= 1 then 0
    else
      var i := n - 2;
      var bid := RestsAt(bars, cost, i);
      Misses(es, xs, open, e, n - 1, bars, sigs, p, cost, winners)
      + if !HeldOn(es, xs, open, e, i) && Worthwhile(bars, sigs, p, cost, i) && bars[n - 1].l > bid
           && (winners ==> Wins(bars, p, bid, n - 1))
        then 1 else 0
  }

  /** The last bar of the holding limit of a position entered on bar e, as far as there is data. */
  function HoldEnd(bars: seq<Bar>, p: Params, e: nat): (k: nat)
    requires e < |bars| && p.maxHoldBars >= 1
    ensures e <= k < |bars| && (k == e + p.maxHoldBars || (k == |bars| - 1 && k < e + p.maxHoldBars))
  {
    if e + p.maxHoldBars < |bars| - 1 then e + p.maxHoldBars else |bars| - 1
  }

  /** How far the close has moved from the bid that filled on bar e by the end of the limit. */
  ghost predicate DriftOf(d: real, e: nat, bars: seq<Bar>, p: Params, cost: CostModel) {
    && 1 <= e < |bars| && p.maxHoldBars >= 1
    && var bid := RestsAt(bars, cost, e - 1);
       bid != 0.0 && d == (bars[HoldEnd(bars, p, e)].c - bid) / bid
  }

  /** One drift for each position entered, in order. */
  ghost predicate Drifts(ds: seq<real>, es: seq<nat>, open: bool, e: nat, bars: seq<Bar>, p: Params, cost: CostModel) {
    && |ds| == |es| + (if open then 1 else 0)
    && (forall k :: 0 <= k < |es| ==> DriftOf(ds[k], es[k], bars, p, cost))
    && (open ==> DriftOf(ds[|es|], e, bars, p, cost))
  }

  ghost predicate SameCounts(r: MrScalpResult, s: MrScalpResult) {
    && r.nSignaled == s.nSignaled && r.nPlaced == s.nPlaced && r.nMissed == s.nMissed
    && r.missedWinners == s.missedWinners && r.drifts == s.drifts
  }

  /** The counts over the first n bars do not change when later positions come and go. */
  lemma {:induction false} CountsStand(es0: seq<nat>, xs0: seq<nat>, open0: bool, e0: nat, es: seq<nat>, xs: seq<nat>,
                                       open: bool, e: nat, n: nat, bars: seq<Bar>, sigs: seq<Option<Signal>>, p: Params,
                                       cost: CostModel)
    requires |es0| == |xs0| && |es| == |xs| && n <= |bars| == |sigs|
    requires forall j :: 0 <= j < n ==> (HeldOn(es, xs, open, e, j) <==> HeldOn(es0, xs0, open0, e0, j))
    ensures FreeSignals(es, xs, open, e, n, sigs) == FreeSignals(es0, xs0, open0, e0, n, sigs)
    ensures Bids(es, xs, open, e, n, bars, sigs, p, cost) == Bids(es0, xs0, open0, e0, n, bars, sigs, p, cost)
    ensures forall w :: Misses(es, xs, open, e, n, bars, sigs, p, cost, w)
                        == Misses(es0, xs0, open0, e0, n, bars, sigs, p, cost, w)
  {
    hide HeldOn, Worthwhile, Wins;
    if n > 0 {
      CountsStand(es0, xs0, open0, e0, es, xs, open, e, n - 1, bars, sigs, p, cost);
    }
  }

  /** One more bar in each count. */
  lemma CountsNext(es: seq<nat>, xs: seq<nat>, open: bool, e: nat, i: nat, bars: seq<Bar>, sigs: seq<Option<Signal>>,
                   p: Params, cost: CostModel, w: bool)
    requires |es| == |xs| && i < |bars| == |sigs|
    ensures FreeSignals(es, xs, open, e, i + 1, sigs)
         == FreeSignals(es, xs, open, e, i, sigs)
            + if !HeldOn(es, xs, open, e, i) && sigs[i].Some? && sigs[i].value.entryOk then 1 else 0
    ensures Bids(es, xs, open, e, i + 1, bars, sigs, p, cost)
         == Bids(es, xs, open, e, i, bars, sigs, p, cost)
            + if !HeldOn(es, xs, open, e, i) && Worthwhile(bars, sigs, p, cost, i) then 1 else 0
    ensures Misses(es, xs, open, e, i + 1, bars, sigs, p, cost, w)
                        == Misses(es, xs, open, e, i, bars, sigs, p, cost, w)
                           + (if i > 0 && !HeldOn(es, xs, open, e, i - 1) && Worthwhile(bars, sigs, p, cost, i - 1)
                                && bars[i].l > RestsAt(bars, cost, i - 1)
                                && (w ==> Wins(bars, p, RestsAt(bars, cost, i - 1), i))
                              then 1 else 0)
  {
    hide HeldOn, Worthwhile, Wins, RestsAt;
  }

  /** The counters before bar i. */
  ghost predicate Counted(res: MrScalpResult, es: seq<nat>, xs: seq<nat>, open: bool, e: nat, i: nat, bars: seq<Bar>,
                          sigs: seq<Option<Signal>>, p: Params, cost: CostModel)
    requires |es| == |xs| && i <= |bars| == |sigs|
  {
    && res.nSignaled == FreeSignals(es, xs, open, e, i, sigs)
    && res.nPlaced == Bids(es, xs, open, e, i, bars, sigs, p, cost)
    && res.nMissed == Misses(es, xs, open, e, i, bars, sigs, p, cost, false)
    && res.missedWinners == Misses(es, xs, open, e, i, bars, sigs, p, cost, true)
    && Drifts(res.drifts, es, open, e, bars, p, cost)
  }

  /** One bar, from the counters before it to those after: mid is once the exits and the resting bid
      have been dealt with. */
  lemma CountedNext(res0: MrScalpResult, mid: MrScalpResult, res: MrScalpResult, es0: seq<nat>, xs0: seq<nat>,
                    open0: bool, e0: nat, es: seq<nat>, xs: seq<nat>, open: bool, e: nat, bid0: Option<real>,
                    bid: Option<real>, i: nat, bars: seq<Bar>, sigs: seq<Option<Signal>>, p: Params, cost: CostModel)
    requires |es0| == |xs0| && |es| == |xs| && i < |bars| == |sigs| && p.maxHoldBars >= 1
    requires Counted(res0, es0, xs0, open0, e0, i, bars, sigs, p, cost)
    requires BidDue(bid0, es0, xs0, open0, e0, i, bars, sigs, p, cost)
    requires BidDue(bid, es, xs, open, e, i + 1, bars, sigs, p, cost)
    requires forall j :: 0 <= j < i ==> (HeldOn(es, xs, open, e, j) <==> HeldOn(es0, xs0, open0, e0, j))
    requires HeldOn(es, xs, open, e, i) <==> open
    // the exits and the resting bid
    requires bid0.None? ==> SameCounts(mid, res0)
    requires bid0.Some? ==>
               && !open0 && bid0.value != 0.0 && mid.nSignaled == res0.nSignaled && mid.nPlaced == res0.nPlaced
               && mid.nMissed == res0.nMissed + (if bars[i].l > bid0.value then 1 else 0)
               && mid.missedWinners
                  == res0.missedWinners + (if bars[i].l > bid0.value && Wins(bars, p, bid0.value, i) then 1 else 0)
               && mid.drifts == (if bars[i].l <= bid0.value
                                 then res0.drifts + [(bars[HoldEnd(bars, p, i)].c - bid0.value) / bid0.value]
                                 else res0.drifts)
    requires if open0 then bid0.None? && (if open then es == es0 && e == e0 else es == es0 + [e0])
             else es == es0 && (open <==> bid0.Some? && bars[i].l <= bid0.value) && (open ==> e == i)
    // the new bid
    requires res.nSignaled == mid.nSignaled + if !open && sigs[i].Some? && sigs[i].value.entryOk then 1 else 0
    requires res.nPlaced == mid.nPlaced + if bid.Some? then 1 else 0
    requires res.nMissed == mid.nMissed && res.missedWinners == mid.missedWinners && res.drifts == mid.drifts
    ensures Counted(res, es, xs, open, e, i + 1, bars, sigs, p, cost)
  {
    hide HeldOn, Worthwhile, Wins, FreeSignals, Bids, Misses, HoldEnd, RestsAt;
    CountsStand(es0, xs0, open0, e0, es, xs, open, e, i, bars, sigs, p, cost);
    CountsNext(es, xs, open, e, i, bars, sigs, p, cost, true);
    CountsNext(es, xs, open, e, i, bars, sigs, p, cost, false);
  }

  /** What one bar does to that: a position ends, or one opens at the bid, or nothing. */
  lemma TakenNext(es0: seq<nat>, xs0: seq<nat>, open0: bool, e0: nat, es: seq<nat>, xs: seq<nat>, open: bool, e: nat,
                  bid0: Option<real>, i: nat, bars: seq<Bar>, sigs: seq<Option<Signal>>, p: Params, cost: CostModel)
    requires Taken(es0, xs0, open0, e0, i, bars, sigs, p, cost) && i < |bars|
    requires BidDue(bid0, es0, xs0, open0, e0, i, bars, sigs, p, cost)
    requires if open0 then
               bid0.None? && (if open then es == es0 && xs == xs0 && e == e0
                              else es == es0 + [e0] && xs == xs0 + [i])
             else
               && es == es0 && xs == xs0 && (open <==> bid0.Some? && bars[i].l <= bid0.value) && (open ==> e == i)
    ensures Taken(es, xs, open, e, i + 1, bars, sigs, p, cost)
    ensures HeldOn(es, xs, open, e, i) <==> open
    ensures forall j :: 0 <= j < i ==> (HeldOn(es, xs, open, e, j) <==> HeldOn(es0, xs0, open0, e0, j))
  {
    hide Worthwhile;
    if !open0 {
      forall j | 0 <= j < i ensures HeldOn(es, xs, open, e, j) <==> HeldOn(es0, xs0, open0, e0, j) {
      }
    } else if !open {
      forall j | 0 <= j < i ensures HeldOn(es, xs, open, e, j) <==> HeldOn(es0, xs0, open0, e0, j) {
        HeldOnEnded(es0, xs0, e0, e, i, j);
      }
      assert es[|es0|] == e0;
      assert forall j :: j in es0 ==> j in es;
    }
  }

  lemma HeldOnEnded(es: seq<nat>, xs: seq<nat>, e: nat, other: nat, i: nat, j: nat)
    requires |es| == |xs| && j < i
    ensures HeldOn(es + [e], xs + [i], false, other, j) <==> HeldOn(es, xs, true, e, j)
  {
    var es', xs' := es + [e], xs + [i];
    if e <= j {
      assert es'[|es|] <= j < xs'[|es|];
    }
    if k :| 0 <= k < |es| && es[k] <= j < xs[k] {
      assert es'[k] <= j < xs'[k];
    }
  }

  method BacktestMrScalp(bars: seq<Bar>, sigs: seq<Option<Signal>>, p: Params, cost: CostModel)
      returns (res: MrScalpResult, resting: bool, open: bool, ghost es: seq<nat>, ghost xs: seq<nat>, ghost e: nat)
    requires |sigs| == |bars| && Sane(p, cost) && NonzeroCloses(bars, sigs)
    ensures |res.trades| == |es| == |xs|
    ensures forall k :: 0 <= k < |es| ==> ByTheRules(res.trades[k], es[k], xs[k], bars, sigs, p, cost)
    ensures Taken(es, xs, open, e, |bars|, bars, sigs, p, cost)
    ensures res.nBars == |bars| && Balanced(res, resting, open) && !(resting && open)
    ensures AllFollow(res.trades, es, xs, bars, sigs, p, cost) && Disjoint(es, xs, p.maxHoldBars)
    // the counters, on bars, parameters and trades alone
    ensures res.nSignaled == FreeSignals(es, xs, open, e, |bars|, sigs)
    ensures res.nPlaced == Bids(es, xs, open, e, |bars|, bars, sigs, p, cost)
    ensures res.nMissed == Misses(es, xs, open, e, |bars|, bars, sigs, p, cost, false)
    ensures res.missedWinners == Misses(es, xs, open, e, |bars|, bars, sigs, p, cost, true)
    ensures Drifts(res.drifts, es, open, e, bars, p, cost)
    ensures res.postFillDrift == if res.drifts == [] then 0.0 else Total(res.drifts) / |res.drifts| as real
  {
    hide Follows, ExitOn, Placed, Open, Stands, Taken, Worthwhile, ByTheRules, BidDue, HeldOn, FreeSignals, Bids,
         Misses, Drifts, Wins;
    res := MrScalpResult([], 0, 0, 0, 0, 0, 0, 0, [], 0.0);
    var pendingBid: Option<real>, pos: Option<Position> := None, None;
    es, xs, e := [], [], 0;
    StandsAtStart(bars, sigs, p, cost);
    NothingTaken(bars, sigs, p, cost);
    for i := 0 to |bars|
      invariant Stands(res, pendingBid, pos, es, xs, e, i, false, bars, sigs, p, cost)
      invariant |es| == |xs| && Taken(es, xs, pos.Some?, e, i, bars, sigs, p, cost)
      invariant BidDue(pendingBid, es, xs, pos.Some?, e, i, bars, sigs, p, cost)
      invariant Counted(res, es, xs, pos.Some?, e, i, bars, sigs, p, cost)
    {
      ghost var res0, es0, xs0, e0, open0, bid0 := res, es, xs, e, pos.Some?, pendingBid;
      StandsMeans(res, pendingBid, pos, es, xs, e, i, false, bars, sigs, p, cost);
      res := res.(nBars := res.nBars + 1);
      // exits first, only for a position opened on an earlier bar
      if pos.Some? {
        res, pos, es, xs := Exits(res, pos.value, i, bars, sigs, p, cost, es, xs, e);
      } else if pendingBid.None? {
        StandsIdle(res, es, xs, e, i, bars, sigs, p, cost);
      }
      // a bid resting since the last close fills or is missed on this bar
      if pos.None? && pendingBid.Some? {
        res, pos, e := ResolveBid(res, pendingBid.value, i, bars, sigs, p, cost, es, xs, e);
        pendingBid := None;
      }
      ghost var mid := res;
      TakenNext(es0, xs0, open0, e0, es, xs, pos.Some?, e, bid0, i, bars, sigs, p, cost);
      // flat and signaled: rest a bid for the next bar, if it pays for its costs
      res, pendingBid := RestBid(res, pos, i, bars, sigs, p, cost, es, xs, e);
      BidDueNext(pendingBid, es, xs, pos.Some?, e, i, bars, sigs, p, cost);
      CountedNext(res0, mid, res, es0, xs0, open0, e0, es, xs, pos.Some?, e, bid0, pendingBid, i, bars, sigs, p, cost);
    }
    StandsMeans(res, pendingBid, pos, es, xs, e, |bars|, false, bars, sigs, p, cost);
    forall k | 0 <= k < |es| ensures ByTheRules(res.trades[k], es[k], xs[k], bars, sigs, p, cost) {
      FollowsTheRules(res.trades[k], es[k], xs[k], bars, sigs, p, cost);
    }
    resting, open := pendingBid.Some?, pos.Some?;
    var mean := Mean(res.drifts);
    res := res.(postFillDrift := mean);
  }

  method Mean(xs: seq<real>) returns (mean: real)
    ensures mean == if xs == [] then 0.0 else Total(xs) / |xs| as real
  {
    var sum := 0.0;
    for i := 0 to |xs|
      invariant sum == Total(xs[..i])
    {
      assert xs[..i + 1] == xs[..i] + [xs[i]];
      TotalAppend(xs[..i], xs[i]);
      sum := sum + xs[i];
    }
    assert xs[..|xs|] == xs;
    mean := if xs == [] then 0.0 else sum / |xs| as real;
  }

  method Exits(res0: MrScalpResult, pos0: Position, i: nat, bars: seq<Bar>, sigs: seq<Option<Signal>>, p: Params,
               cost: CostModel,
               ghost es0: seq<nat>, ghost xs0: seq<nat>, ghost e: nat)
      returns (res: MrScalpResult, pos: Option<Position>, ghost es: seq<nat>, ghost xs: seq<nat>)
    requires Sane(p, cost) && i < |bars| == |sigs| && res0.nBars == i + 1
    requires Stands(res0.(nBars := i), None, Some(pos0), es0, xs0, e, i, false, bars, sigs, p, cost)
    ensures Stands(res, None, pos, es, xs, e, i, true, bars, sigs, p, cost)
    ensures if pos.Some? then es == es0 && xs == xs0 else es == es0 + [e] && xs == xs0 + [i]
    ensures SameCounts(res, res0)
  {
    hide Follows, ExitOn, Placed, Open, Wins;
    OpenMeans(pos0, e, i, bars, sigs, p, cost);
    var trade := ExitTrade(pos0, i, bars, sigs, p, cost, e);
    if trade.Some? {
      ExitWithinLimit(trade.value, e, i, bars, sigs, p, cost);
      res := res0.(trades := res0.trades + [trade.value]);
      pos, es, xs := None, es0 + [e], xs0 + [i];
    } else {
      res, pos, es, xs := res0, Some(pos0.(bars := pos0.bars + 1)), es0, xs0;
    }
  }

  method ResolveBid(res0: MrScalpResult, bid: real, i: nat, bars: seq<Bar>, sigs: seq<Option<Signal>>, p: Params,
                    cost: CostModel,
                    ghost es: seq<nat>, ghost xs: seq<nat>, ghost e0: nat)
      returns (res: MrScalpResult, pos: Option<Position>, ghost e: nat)
    requires Sane(p, cost) && i < |bars| == |sigs| && res0.nBars == i + 1
    requires Stands(res0.(nBars := i), Some(bid), None, es, xs, e0, i, false, bars, sigs, p, cost)
    ensures Stands(res, None, pos, es, xs, e, i, true, bars, sigs, p, cost)
    ensures res.nMissed == res0.nMissed + if bars[i].l > bid then 1 else 0
    ensures res.missedWinners == res0.missedWinners + if bars[i].l > bid && Wins(bars, p, bid, i) then 1 else 0
    ensures res.nSignaled == res0.nSignaled && res.nPlaced == res0.nPlaced
    ensures bid != 0.0
    ensures res.drifts == if bars[i].l <= bid then res0.drifts + [(bars[HoldEnd(bars, p, i)].c - bid) / bid]
                          else res0.drifts
    ensures pos.Some? <==> bars[i].l <= bid
    ensures pos.Some? ==> e == i && i > 0 && bid == RestsAt(bars, cost, i - 1)
    ensures pos.None? ==> e == e0
  {
    hide Follows, ExitOn, Placed, Open, Wins;
    var n, bar := |bars|, bars[i];
    PlacedNonzero(bars, sigs, p, cost, i - 1);
    BidNonzero(bars, cost, i - 1);
    e := e0;
    if bar.l <= bid {
      pos := Some(Position(bar.ts, bid, 0));
      e := i;
      var k := if i + p.maxHoldBars < n - 1 then i + p.maxHoldBars else n - 1;
      res := res0.(nFilled := res0.nFilled + 1, drifts := res0.drifts + [(bars[k].c - bid) / bid]);
      JustOpened(pos.value, i, bars, sigs, p, cost);
    } else {
      var hi := HighestHigh(bars, i, if i + p.maxHoldBars < n then i + p.maxHoldBars else n);
      pos := None;
      WinsIff(bars, p, bid, i, hi);
      res := res0.(nMissed := res0.nMissed + 1,
                   missedWinners := res0.missedWinners + if hi >= bid * (1.0 + p.tpNet) then 1 else 0);
    }
  }

  method RestBid(res0: MrScalpResult, pos: Option<Position>, i: nat, bars: seq<Bar>, sigs: seq<Option<Signal>>,
                 p: Params, cost: CostModel,
                 ghost es: seq<nat>, ghost xs: seq<nat>, ghost e: nat)
      returns (res: MrScalpResult, bid: Option<real>)
    requires Sane(p, cost) && i < |bars| == |sigs|
    requires Stands(res0, None, pos, es, xs, e, i, true, bars, sigs, p, cost)
    ensures Stands(res, bid, pos, es, xs, e, i + 1, false, bars, sigs, p, cost)
    ensures bid.Some? <==> pos.None? && Worthwhile(bars, sigs, p, cost, i)
    ensures bid.Some? ==> bid.value == RestsAt(bars, cost, i)
    ensures res.nSignaled == res0.nSignaled + if pos.None? && sigs[i].Some? && sigs[i].value.entryOk then 1 else 0
    ensures res.nPlaced == res0.nPlaced + if bid.Some? then 1 else 0
    ensures res.nMissed == res0.nMissed && res.missedWinners == res0.missedWinners && res.drifts == res0.drifts
  {
    hide Follows, ExitOn, Placed, Open, Wins;
    PlacedMeans(bars, sigs, p, cost, i);
    res, bid := res0, None;
    var ind, bar := sigs[i], bars[i];
    if pos.None? && ind.Some? && ind.value.entryOk {
      res := res.(nSignaled := res.nSignaled + 1);
      var snapback := (ind.value.vwap - bar.c) / bar.c;
      if snapback > cost.RoundTripEstimate() + p.margin {
        bid := Some(bar.c * (1.0 - cost.spread / 2.0));
        res := res.(nPlaced := res.nPlaced + 1);
      } else {
        res := res.(nCostSkipped := res.nCostSkipped + 1);
      }
    }
  }

  lemma StandsAtStart(bars: seq<Bar>, sigs: seq<Option<Signal>>, p: Params, cost: CostModel)
    requires |sigs| == |bars| && Sane(p, cost) && NonzeroCloses(bars, sigs)
    ensures Stands(MrScalpResult([], 0, 0, 0, 0, 0, 0, 0, [], 0.0), None, None, [], [], 0, 0, false, bars, sigs, p,
                   cost)
  {
    hide Follows, ExitOn, Placed, Open, NonzeroCloses, BidAfter, AllFollow, Disjoint,
         Balanced;
    NothingYet(bars, sigs, p, cost);
  }

  lemma NothingYet(bars: seq<Bar>, sigs: seq<Option<Signal>>, p: Params, cost: CostModel)
    ensures AllFollow([], [], [], bars, sigs, p, cost) && Disjoint([], [], p.maxHoldBars)
    ensures Balanced(MrScalpResult([], 0, 0, 0, 0, 0, 0, 0, [], 0.0), false, false)
  {
  }

  lemma StandsIdle(res: MrScalpResult, es: seq<nat>, xs: seq<nat>, e: nat, i: nat,
                   bars: seq<Bar>, sigs: seq<Option<Signal>>, p: Params, cost: CostModel)
    requires Sane(p, cost) && i < |bars| == |sigs| && res.nBars == i + 1
    requires Stands(res.(nBars := i), None, None, es, xs, e, i, false, bars, sigs, p, cost)
    ensures Stands(res, None, None, es, xs, e, i, true, bars, sigs, p, cost)
  {
    hide Follows, ExitOn, Placed, Open, Wins;
  }

  lemma StandsMeans(res: MrScalpResult, bid: Option<real>, pos: Option<Position>, es: seq<nat>, xs: seq<nat>, e: nat,
                    i: nat, done: bool, bars: seq<Bar>, sigs: seq<Option<Signal>>, p: Params, cost: CostModel)
    requires Sane(p, cost) && Stands(res, bid, pos, es, xs, e, i, done, bars, sigs, p, cost)
    ensures |sigs| == |bars| && res.nBars == (if done then i + 1 else i) && !(bid.Some? && pos.Some?)
    ensures Balanced(res, bid.Some?, pos.Some?)
    ensures AllFollow(res.trades, es, xs, bars, sigs, p, cost) && Disjoint(es, xs, p.maxHoldBars)
  {
  }

  /** The exit block of the loop. */
  method ExitTrade(pos: Position, i: nat, bars: seq<Bar>, sigs: seq<Option<Signal>>, p: Params, cost: CostModel,
                   ghost e: nat)
      returns (trade: Option<Trade>)
    requires Sane(p, cost) && 1 <= e < i < |bars| == |sigs| && Open(pos, e, i, bars, sigs, p, cost) && pos.entry != 0.0
    ensures trade.Some? ==> Follows(trade.value, e, i, bars, sigs, p, cost)
    ensures trade.None? ==> Open(pos.(bars := pos.bars + 1), e, i + 1, bars, sigs, p, cost)
    ensures trade.Some? <==> ExitOn(bars, sigs, p, cost, pos.entry, e, i).Some?
  {
    var held, entry, bar := pos.bars + 1, pos.entry, bars[i];
    var tp, sl := TargetLevel(entry, p, cost), StopLevel(entry, p);
    var px: Option<real>, reason, ef := None, TIME, cost.takerFee;
    var cur := Before(sigs, i);
    if bar.l <= sl {
      px, reason := Some(Slipped(sl, cost)), SL;
    } else if bar.h >= tp {
      px, reason, ef := Some(tp), TP, cost.makerFee;
    } else if cur.Some? && cur.value.zscore >= p.zExit {
      px, reason := Some(Slipped(bar.c, cost)), ZEXIT;
    } else if held >= p.maxHoldBars {
      px, reason := Some(Slipped(bar.c, cost)), TIME;
    }
    if px.None? {
      return None;
    }
    return Some(Trade(pos.ts, bar.ts, entry, px.value, held, reason,
                      Net(px.value, entry, ef, cost.makerFee), Gross(px.value, entry)));
  }

  method HighestHigh(bars: seq<Bar>, from: nat, to: nat) returns (hi: real)
    requires from < to <= |bars|
    ensures exists j :: from <= j < to && hi == bars[j].h
    ensures forall j :: from <= j < to ==> bars[j].h <= hi
  {
    hi := bars[from].h;
    for j := from + 1 to to
      invariant exists k :: from <= k < j && hi == bars[k].h
      invariant forall k :: from <= k < j ==> bars[k].h <= hi
    {
      if bars[j].h > hi {
        hi := bars[j].h;
      }
    }
  }

  lemma NonzeroProduct(x: real, y: real)
    requires x != 0.0 && y != 0.0
    ensures x * y != 0.0
  {
  }

  lemma BidNonzero(bars: seq<Bar>, cost: CostModel, i: nat)
    requires i < |bars| && bars[i].c != 0.0 && cost.spread != 2.0
    ensures BidAfter(bars, cost, i) != 0.0
  {
    NonzeroProduct(bars[i].c, 1.0 - cost.spread / 2.0);
  }

  lemma PlacedNonzero(bars: seq<Bar>, sigs: seq<Option<Signal>>, p: Params, cost: CostModel, i: nat)
    requires i < |bars| == |sigs| && Placed(bars, sigs, p, cost, i)
    ensures bars[i].c != 0.0
  {
  }

  lemma OpenMeans(pos: Position, e: nat, i: nat, bars: seq<Bar>, sigs: seq<Option<Signal>>, p: Params, cost: CostModel)
    requires Open(pos, e, i, bars, sigs, p, cost) && NonzeroCloses(bars, sigs) && Sane(p, cost)
    ensures 1 <= e < i && pos.entry != 0.0
  {
    BidNonzero(bars, cost, e - 1);
  }

  lemma WinsIff(bars: seq<Bar>, p: Params, bid: real, i: nat, hi: real)
    requires i < |bars| && p.maxHoldBars >= 1
    requires var to := if i + p.maxHoldBars < |bars| then i + p.maxHoldBars else |bars|;
      (exists j :: i <= j < to && hi == bars[j].h) && forall j :: i <= j < to ==> bars[j].h <= hi
    ensures Wins(bars, p, bid, i) <==> hi >= bid * (1.0 + p.tpNet)
  {
  }

  lemma JustOpened(pos: Position, i: nat, bars: seq<Bar>, sigs: seq<Option<Signal>>, p: Params, cost: CostModel)
    requires 1 <= i < |bars| == |sigs| && pos.bars == 0 && pos.ts == bars[i].ts
    requires pos.entry == BidAfter(bars, cost, i - 1) && bars[i].l <= pos.entry && Placed(bars, sigs, p, cost, i - 1)
    ensures Open(pos, i, i + 1, bars, sigs, p, cost)
  {
  }

  lemma PlacedMeans(bars: seq<Bar>, sigs: seq<Option<Signal>>, p: Params, cost: CostModel, i: nat)
    requires i < |bars| == |sigs| && (Signaled(sigs, i) ==> bars[i].c != 0.0)
    ensures Placed(bars, sigs, p, cost, i) <==>
      Signaled(sigs, i)
      && (sigs[i].value.vwap - bars[i].c) / bars[i].c > cost.RoundTripEstimate() + p.margin
  {
  }

  lemma LimitBarExits(bars: seq<Bar>, sigs: seq<Option<Signal>>, p: Params, cost: CostModel, entry: real, e: nat,
                      j: nat)
    requires e < j < |bars| && |sigs| == |bars| && j - e >= p.maxHoldBars
    ensures ExitOn(bars, sigs, p, cost, entry, e, j).Some?
  {
  }

  /** A position is never held past the limit: the limit bar itself gives an exit. */
  lemma ExitWithinLimit(t: Trade, e: nat, x: nat, bars: seq<Bar>, sigs: seq<Option<Signal>>, p: Params, cost: CostModel)
    requires Follows(t, e, x, bars, sigs, p, cost) && p.maxHoldBars >= 1
    ensures 1 <= x - e <= p.maxHoldBars
  {
    hide ExitOn;
    if x - e > p.maxHoldBars {
      LimitBarExits(bars, sigs, p, cost, t.entryPrice, e, e + p.maxHoldBars);
    }
  }

  // ---- costs only ever cost -----------------------------------------------------------------------------

  /** Fees never improve a trade: the net return is at most the gross one. */
  lemma NetAtMostGross(t: Trade, e: nat, x: nat, bars: seq<Bar>, sigs: seq<Option<Signal>>, p: Params, cost: CostModel)
    requires Follows(t, e, x, bars, sigs, p, cost) && Ordinary(bars, p, cost)
    ensures t.net <= t.gross
  {
    ExitPriceNonneg(t, e, x, bars, sigs, p, cost);
    NetBelowGross(t.exitPrice, t.entryPrice, ExitFee(t.reason, cost), cost.makerFee);
  }

  lemma ExitPriceNonneg(t: Trade, e: nat, x: nat, bars: seq<Bar>, sigs: seq<Option<Signal>>, p: Params, cost: CostModel)
    requires Follows(t, e, x, bars, sigs, p, cost) && Ordinary(bars, p, cost)
    ensures t.exitPrice >= 0.0 && t.entryPrice > 0.0
  {
    var entry := t.entryPrice;
    PositiveProduct(bars[e - 1].c, 1.0 - cost.spread / 2.0);
    ProductNonneg(entry, 1.0 + p.sl);
    ProductNonneg(entry, 1.0 + p.tpNet + 2.0 * cost.makerFee);
    ProductNonneg(bars[x].c, 1.0 - cost.slippage);
    ProductNonneg(entry * (1.0 + p.sl), 1.0 - cost.slippage);
  }

  lemma NetBelowGross(px: real, entry: real, ef: real, mf: real)
    requires px >= 0.0 && entry > 0.0 && 0.0 <= ef <= 1.0 && mf >= 0.0
    ensures Net(px, entry, ef, mf) <= Gross(px, entry)
  {
    var a, d := px * (1.0 - ef), entry * (1.0 + mf);
    PositiveProduct(entry, 1.0 + mf);
    var q, g := a / d, (px - entry) / entry;
    assert q * d == a;
    assert g * entry == px - entry;
    var w := g + 1.0;
    assert w * entry == px;
    // a <= px = w * entry <= w * d, as w >= 0
    assert px * ef >= 0.0;
    if w < 0.0 {
      PositiveProduct(-w, entry);
    }
    ProductNonneg(w, entry);
    ProductNonneg(w * entry, mf);
    assert w * d == w * entry + (w * entry) * mf;
    if q > w {
      PositiveProduct(q - w, d);
      assert (q - w) * d == q * d - w * d;
    }
  }
}
