/** The momentum rule once more, on bars and parameters alone: when a trade is entered, when and
    at what price it ends, and that no ignition is passed over. */
module MomentumRules {
  import opened Sums
  import opened Momentum

  /** Two rises in a row: the last bar by enter_1m or more, the one before by confirm_1m or more. */
  ghost predicate Ignites(bars: seq<Bar>, p: Params, i: nat) {
    && 2 <= i < |bars| && bars[i - 2].close > 0.0 && bars[i - 1].close > 0.0
    && bars[i].close >= bars[i - 1].close * (1.0 + p.enter1m)
    && bars[i - 1].close >= bars[i - 2].close * (1.0 + p.confirm1m)
  }

  /** The highest price since the entry on the close of bar e, as known before bar j. */
  ghost function PeakBefore(bars: seq<Bar>, e: nat, j: nat): real
    requires e < j <= |bars|
  {
    if j == e + 1 then bars[e].close
    else if bars[j - 1].high > PeakBefore(bars, e, j - 1) then bars[j - 1].high
    else PeakBefore(bars, e, j - 1)
  }

  /** Bar j leaves the position open. */
  ghost predicate Quiet(bars: seq<Bar>, p: Params, e: nat, j: nat)
    requires e < j < |bars|
  {
    bars[j].low > PeakBefore(bars, e, j) * (1.0 - p.trailFrac) && j - e < p.maxHold
  }

  /** Bar x ends it at this price: the trail level when its low is there, but the stop level when
      the stop lies below the trail and the low is through it too; else by time, at the close. */
  ghost predicate Ends(bars: seq<Bar>, p: Params, e: nat, x: nat, price: real)
    requires e < x < |bars|
  {
    var trail, stop := PeakBefore(bars, e, x) * (1.0 - p.trailFrac), bars[e].close * (1.0 - p.stopFrac);
    if bars[x].low <= trail then price == if bars[x].low <= stop <= trail then stop else trail
    else x - e >= p.maxHold && price == bars[x].close
  }

  /** Entered on an ignition, open through every bar in between, and ended by the rule, or by the end
      of the data with the last close. */
  ghost predicate ByTheRule(t: Trade, bars: seq<Bar>, p: Params) {
    && t.entryBar < t.exitBar < |bars| && Ignites(bars, p, t.entryBar)
    && (forall j :: t.entryBar < j < t.exitBar ==> Quiet(bars, p, t.entryBar, j))
    && (Ends(bars, p, t.entryBar, t.exitBar, t.exitPrice)
        || (t.exitBar == |bars| - 1 && Quiet(bars, p, t.entryBar, t.exitBar)
            && t.exitPrice == bars[t.exitBar].close))
  }

  ghost predicate During(ts: seq<Trade>, i: nat) {
    exists k :: 0 <= k < |ts| && ts[k].entryBar <= i <= ts[k].exitBar
  }

  /** All trades are by the rule, and each ignition from bar i on, but for one on the last bar, falls
      into one of them. */
  ghost predicate AllByTheRule(ts: seq<Trade>, bars: seq<Bar>, p: Params, i: nat) {
    && (forall k :: 0 <= k < |ts| ==> ByTheRule(ts[k], bars, p))
    && (forall j :: i <= j < |bars| - 1 && Ignites(bars, p, j) ==> During(ts, j))
  }

  lemma RiseIs(x: real, y: real, rate: real)
    requires y > 0.0
    ensures x / y - 1.0 >= rate <==> x >= y * (1.0 + rate)
  {
    hide Times;
    var q, c := x / y, 1.0 + rate;
    QuotientTimes(x, y);
    TimesAdds(q, c, y);
    TimesAdds(c, q, y);
    Commutes(y, c);
    if q >= c {
      NonnegTimes(q - c, y);
    } else {
      PositiveTimes(c - q, y);
    }
  }

  lemma QuotientTimes(x: real, y: real)
    requires y != 0.0
    ensures Times(x / y, y) == x
  {
  }

  lemma Commutes(y: real, c: real)
    ensures y * c == Times(c, y)
  {
  }

  lemma NonnegTimes(a: real, b: real)
    requires a >= 0.0 && b >= 0.0
    ensures Times(a, b) >= 0.0
  {
    ProductNonneg(a, b);
  }

  lemma PositiveTimes(a: real, b: real)
    requires a > 0.0 && b > 0.0
    ensures Times(a, b) > 0.0
  {
    PositiveProduct(a, b);
  }

  lemma RisesIff(prev2: real, prev: real, close: real, p: Params)
    ensures EntryOk(prev2, prev, close, p) <==>
              && prev2 > 0.0 && prev > 0.0
              && close >= prev * (1.0 + p.enter1m) && prev >= prev2 * (1.0 + p.confirm1m)
  {
    if prev2 > 0.0 && prev > 0.0 {
      RiseIs(close, prev, p.enter1m);
      RiseIs(prev, prev2, p.confirm1m);
    }
  }

  lemma IgnitesIff(bars: seq<Bar>, p: Params, i: nat)
    requires i < |bars|
    ensures EntryAt(bars, p, i) <==> Ignites(bars, p, i)
  {
    RisesIff(CloseAt(bars, i - 2), CloseAt(bars, i - 1), bars[i].close, p);
  }

  /** What the walk does with one bar. */
  lemma WalkStep(bars: seq<Bar>, p: Params, e: nat, i: nat)
    requires e < i < |bars|
    ensures var w := WalkFrom(bars, p, e, i, PeakBefore(bars, e, i));
      if Quiet(bars, p, e, i) then w == WalkFrom(bars, p, e, i + 1, PeakBefore(bars, e, i + 1))
      else w.Closed? && w.bar == i && Ends(bars, p, e, i, w.price)
  {
    hide PeakBefore;
    PeakStep(bars, e, i);
  }

  lemma PeakStep(bars: seq<Bar>, e: nat, i: nat)
    requires e < i < |bars|
    ensures PeakBefore(bars, e, i + 1) == Max(PeakBefore(bars, e, i), bars[i].high)
  {
  }

  lemma {:induction false} WalkIs(bars: seq<Bar>, p: Params, e: nat, i: nat)
    requires e < i <= |bars| && forall j :: e < j < i ==> Quiet(bars, p, e, j)
    ensures match WalkFrom(bars, p, e, i, PeakBefore(bars, e, i))
      case Closed(x, price) =>
        && i <= x < |bars| && (forall j :: e < j < x ==> Quiet(bars, p, e, j)) && Ends(bars, p, e, x, price)
      case StillOpen(_) => forall j :: e < j < |bars| ==> Quiet(bars, p, e, j)
    decreases |bars| - i
  {
    hide WalkFrom, Quiet, Ends, PeakBefore;
    if i < |bars| {
      WalkStep(bars, p, e, i);
      if Quiet(bars, p, e, i) {
        WalkIs(bars, p, e, i + 1);
      }
    } else {
      WalkAtEnd(bars, p, e);
    }
  }

  lemma WalkAtEnd(bars: seq<Bar>, p: Params, e: nat)
    requires e < |bars|
    ensures WalkFrom(bars, p, e, |bars|, PeakBefore(bars, e, |bars|)).StillOpen?
  {
  }

  lemma OneMore(t: Trade, rest: seq<Trade>, bars: seq<Bar>, p: Params, i: nat)
    requires t.entryBar == i && ByTheRule(t, bars, p) && AllByTheRule(rest, bars, p, t.exitBar + 1)
    ensures AllByTheRule([t] + rest, bars, p, i)
  {
    hide Ignites, ByTheRule;
    var ts := [t] + rest;
    assert forall k :: 0 <= k < |rest| ==> ts[k + 1] == rest[k];
    forall j | i <= j < |bars| - 1 && Ignites(bars, p, j) ensures During(ts, j) {
      if j <= t.exitBar {
        assert ts[0].entryBar <= j <= ts[0].exitBar;
      } else {
        var k :| 0 <= k < |rest| && rest[k].entryBar <= j <= rest[k].exitBar;
        assert ts[k + 1].entryBar <= j <= ts[k + 1].exitBar;
      }
    }
  }

  lemma SkipOne(ts: seq<Trade>, bars: seq<Bar>, p: Params, i: nat)
    requires AllByTheRule(ts, bars, p, i + 1) && !Ignites(bars, p, i)
    ensures AllByTheRule(ts, bars, p, i)
  {
    hide Ignites, ByTheRule, During;
  }

  lemma NoneLeft(bars: seq<Bar>, p: Params, i: nat)
    requires i >= |bars| - 1
    ensures AllByTheRule([], bars, p, i)
  {
  }

  lemma {:induction false} ScanIs(bars: seq<Bar>, p: Params, i: nat)
    requires i <= |bars|
    ensures AllByTheRule(TradesFrom(bars, p, i) + ForcedClose(bars, OpenFrom(bars, p, i)), bars, p, i)
    decreases |bars| - i
  {
    hide EntryAt, WalkFrom, AllByTheRule, Ignites, Quiet, Ends;
    if i == |bars| {
      assert ForcedClose(bars, -1) == [];
      NoneLeft(bars, p, i);
    } else {
      IgnitesIff(bars, p, i);
      if !EntryAt(bars, p, i) {
        ScanIs(bars, p, i + 1);
        SkipOne(TradesFrom(bars, p, i) + ForcedClose(bars, OpenFrom(bars, p, i)), bars, p, i);
      } else {
        WalkIs(bars, p, i, i + 1);
        assert PeakBefore(bars, i, i + 1) == bars[i].close;
        var w := WalkFrom(bars, p, i, i + 1, bars[i].close);
        if w.Closed? {
          ScanIs(bars, p, w.bar + 1);
          var t := Trade(i, w.bar, w.price);
          var rest, forced := TradesFrom(bars, p, w.bar + 1), ForcedClose(bars, OpenFrom(bars, p, w.bar + 1));
          OneMore(t, rest + forced, bars, p, i);
          assert ([t] + rest) + forced == [t] + (rest + forced);
        } else if i < |bars| - 1 {
          var t := Trade(i, |bars| - 1, bars[|bars| - 1].close);
          NoneLeft(bars, p, t.exitBar + 1);
          OneMore(t, [], bars, p, i);
          assert [] + [t] == [t] + [];
        } else {
          NoneLeft(bars, p, i);
          assert TradesFrom(bars, p, i) + ForcedClose(bars, OpenFrom(bars, p, i)) == [];
        }
      }
    }
  }

  /** The trades of the batch scan, and with them those of the streaming book, are just these. */
  lemma TradesAreByTheRule(bars: seq<Bar>, p: Params)
    ensures AllByTheRule(BatchTrades(bars, p), bars, p, 0)
  {
    ScanIs(bars, p, 0);
  }

  /** Half the cost is taken on the bar that enters and half on the bar that leaves. */
  lemma CostIsHalved(s: Position, bar: Bar, p: Params)
    requires s.inPos && s.prev == 0.0 ==> !StopHit(s.entry, s.peak, bar, p) && !TrailHit(s.peak, bar, p)
    ensures var o, free := Observe(s, bar, p), Observe(s, bar, p.(cost := 0.0));
      && o.after == free.after && o.action == free.action && o.price == free.price
      && o.r == free.r - if o.action == ENTER || IsExit(o.action) then p.cost / 2.0 else 0.0
  {
    hide EntryOk, StopLevel, TrailLevel;
    assert EntryOk(s.prev2, s.prev, bar.close, p) == EntryOk(s.prev2, s.prev, bar.close, p.(cost := 0.0)) by {
      SameEntry(s.prev2, s.prev, bar.close, p);
    }
    SameLevels(s.entry, s.peak, p);
  }

  lemma SameEntry(prev2: real, prev: real, close: real, p: Params)
    ensures EntryOk(prev2, prev, close, p) == EntryOk(prev2, prev, close, p.(cost := 0.0))
  {
  }

  lemma SameLevels(entry: real, peak: real, p: Params)
    ensures StopLevel(entry, p) == StopLevel(entry, p.(cost := 0.0))
    ensures TrailLevel(peak, p) == TrailLevel(peak, p.(cost := 0.0))
  {
  }

  /** What one bar does to the streaming book: in a position the stop, the trail, the limit or none of
      them; out of one the two rises or nothing. */
  lemma BarRule(s: Position, bar: Bar, p: Params)
    ensures var o := Observe(s, bar, p);
      var stop, trail := s.entry * (1.0 - p.stopFrac), s.peak * (1.0 - p.trailFrac);
      && (o.action == EXIT_STOP <==> s.inPos && bar.low <= stop <= trail)
      && (o.action == EXIT_TRAIL <==> s.inPos && bar.low <= trail && !(bar.low <= stop <= trail))
      && (o.action == EXIT_TIME <==> s.inPos && bar.low > trail && s.barsHeld + 1 >= p.maxHold)
      && (o.action == HOLD <==> s.inPos && bar.low > trail && s.barsHeld + 1 < p.maxHold)
      && (o.action == ENTER <==>
            && !s.inPos && s.prev2 > 0.0 && s.prev > 0.0
            && bar.close >= s.prev * (1.0 + p.enter1m) && s.prev >= s.prev2 * (1.0 + p.confirm1m))
      && (o.action == EXIT_STOP ==> o.price == stop) && (o.action == EXIT_TRAIL ==> o.price == trail)
      && (o.action == EXIT_TIME ==> o.price == bar.close)
      && (o.action == HOLD ==>
            o.after == Position(true, s.entry, if bar.high > s.peak then bar.high else s.peak, s.barsHeld + 1,
                                bar.close, s.prev))
      && (o.action == ENTER ==> o.after == Position(true, bar.close, bar.close, 0, bar.close, s.prev))
      && (o.action != HOLD && o.action != ENTER ==> !o.after.inPos)
      && o.after.prev == bar.close && o.after.prev2 == s.prev
  {
    hide StopLevel, TrailLevel, EntryOk;
    LevelsAre(s.entry, s.peak, p);
    RisesIff(s.prev2, s.prev, bar.close, p);
  }

  lemma LevelsAre(entry: real, peak: real, p: Params)
    ensures StopLevel(entry, p) == entry * (1.0 - p.stopFrac) && TrailLevel(peak, p) == peak * (1.0 - p.trailFrac)
  {
  }

  /** What a bar returns: entering costs half the cost, a held bar is marked at its close, and an
      exit at its price with the other half taken off. */
  lemma BarReturns(s: Position, bar: Bar, p: Params)
    requires s.prev > 0.0
    ensures var o := Observe(s, bar, p);
      && (o.action == FLAT ==> o.r == 0.0) && (o.action == ENTER ==> o.r == -(p.cost / 2.0))
      && (o.action == HOLD ==> Times(1.0 + o.r, s.prev) == bar.close)
      && (IsExit(o.action) ==> Times(1.0 + o.r + p.cost / 2.0, s.prev) == o.price)
  {
    hide StopLevel, TrailLevel, EntryOk, Times, StopHit, TrailHit;
    QuotientTimes(bar.close, s.prev);
    QuotientTimes(StopLevel(s.entry, p), s.prev);
    QuotientTimes(TrailLevel(s.peak, p), s.prev);
  }

  /** The net of a trade: what it was left at, on what it was entered at, less the whole cost. */
  lemma NetIs(t: Trade, bars: seq<Bar>, p: Params, ret: real, hold: int)
    requires Books(t, bars, p, ret, hold)
    ensures hold == t.exitBar - t.entryBar && t.entryBar < |bars|
    ensures Times(1.0 + ret + p.cost, bars[t.entryBar].close) == t.exitPrice
  {
    hide Times;
    QuotientTimes(t.exitPrice, bars[t.entryBar].close);
  }
}
