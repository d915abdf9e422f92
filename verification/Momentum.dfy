/** The momentum rule three times over: the streaming book of
    treasuryforge/scalp_shadow.py, the batch exit walk of
    treasuryforge/signals/momentum.py, and the non-overlapping scan of
    treasuryforge/momentum_backtest.py. */
module Momentum {
  import opened Sums

  datatype Params = Params(enter1m: real, confirm1m: real, trailFrac: real, stopFrac: real, maxHold: int, cost: real)

  datatype Bar = Bar(high: real, low: real, close: real)

  datatype Action = FLAT | ENTER | HOLD | EXIT_STOP | EXIT_TRAIL | EXIT_TIME

  predicate EntryOk(prev2: real, prev: real, close: real, p: Params) {
    if prev2 <= 0.0 || prev <= 0.0 then false
    else close / prev - 1.0 >= p.enter1m && prev / prev2 - 1.0 >= p.confirm1m
  }

  function TrailLevel(peak: real, p: Params): real {
    peak * (1.0 - p.trailFrac)
  }

  function StopLevel(entry: real, p: Params): real {
    entry * (1.0 - p.stopFrac)
  }

  predicate StopHit(entry: real, peak: real, bar: Bar, p: Params) {
    bar.low <= StopLevel(entry, p) && StopLevel(entry, p) <= TrailLevel(peak, p)
  }

  predicate TrailHit(peak: real, bar: Bar, p: Params) {
    bar.low <= TrailLevel(peak, p)
  }

  // ---- the reference: completed trades of a series ----------------------------------------

  datatype Trade = Trade(entryBar: nat, exitBar: nat, exitPrice: real)

  datatype Walk = Closed(bar: nat, price: real) | StillOpen(peak: real)

  /** The first bar from i on that ends the position entered on bar e. */
  function WalkFrom(bars: seq<Bar>, p: Params, e: nat, i: nat, peak: real): Walk
    requires e < i <= |bars|
    decreases |bars| - i
  {
    if i == |bars| then StillOpen(peak)
    else if StopHit(bars[e].close, peak, bars[i], p) then Closed(i, StopLevel(bars[e].close, p))
    else if TrailHit(peak, bars[i], p) then Closed(i, TrailLevel(peak, p))
    else if i - e >= p.maxHold then Closed(i, bars[i].close)
    else WalkFrom(bars, p, e, i + 1, Max(peak, bars[i].high))
  }

  lemma {:induction false} WalkEndsLater(bars: seq<Bar>, p: Params, e: nat, i: nat, peak: real)
    requires e < i <= |bars|
    ensures WalkFrom(bars, p, e, i, peak).Closed? ==> i <= WalkFrom(bars, p, e, i, peak).bar < |bars|
    decreases |bars| - i
  {
    if i < |bars| {
      WalkEndsLater(bars, p, e, i + 1, Max(peak, bars[i].high));
    }
  }

  function CloseAt(bars: seq<Bar>, i: int): real
    requires i < |bars|
  {
    if i < 0 then 0.0 else bars[i].close
  }

  predicate EntryAt(bars: seq<Bar>, p: Params, i: nat)
    requires i < |bars|
  {
    EntryOk(CloseAt(bars, i - 2), CloseAt(bars, i - 1), bars[i].close, p)
  }

  /** The trades a series completes when scanned flat from bar i. */
  function TradesFrom(bars: seq<Bar>, p: Params, i: nat): seq<Trade>
    requires i <= |bars|
    decreases |bars| - i
  {
    if i == |bars| then []
    else if !EntryAt(bars, p, i) then TradesFrom(bars, p, i + 1)
    else
      WalkEndsLater(bars, p, i, i + 1, bars[i].close);
      match WalkFrom(bars, p, i, i + 1, bars[i].close)
      case Closed(x, price) => [Trade(i, x, price)] + TradesFrom(bars, p, x + 1)
      case StillOpen(_) => []
  }

  /** The entry bar of the position a scan from bar i leaves open, if any. */
  function OpenFrom(bars: seq<Bar>, p: Params, i: nat): int
    requires i <= |bars|
    decreases |bars| - i
  {
    if i == |bars| then -1
    else if !EntryAt(bars, p, i) then OpenFrom(bars, p, i + 1)
    else
      WalkEndsLater(bars, p, i, i + 1, bars[i].close);
      match WalkFrom(bars, p, i, i + 1, bars[i].close)
      case Closed(x, price) => OpenFrom(bars, p, x + 1)
      case StillOpen(_) => i
  }

  // ---- scalp_shadow.py: one bar at a time ------------------------------------------------------

  datatype Position = Position(inPos: bool, entry: real, peak: real, barsHeld: int, prev: real, prev2: real)

  /** What one bar does to the book: the new state, the action, the price of an exit,
      and the return booked. */
  datatype Observed = Observed(after: Position, action: Action, price: real, r: real)

  function Observe(s: Position, bar: Bar, p: Params): Observed {
    var flat := s.(inPos := false, entry := 0.0, peak := 0.0, barsHeld := 0, prev2 := s.prev, prev := bar.close);
    var half := p.cost / 2.0;
    var mtm := if s.prev > 0.0 then bar.close / s.prev - 1.0 else 0.0;
    if s.inPos then
      var held := s.barsHeld + 1;
      if StopHit(s.entry, s.peak, bar, p) then
        Observed(flat, EXIT_STOP, StopLevel(s.entry, p), ExitReturn(StopLevel(s.entry, p), s.prev, half))
      else if TrailHit(s.peak, bar, p) then
        Observed(flat, EXIT_TRAIL, TrailLevel(s.peak, p), ExitReturn(TrailLevel(s.peak, p), s.prev, half))
      else if held >= p.maxHold then Observed(flat, EXIT_TIME, bar.close, mtm - half)
      else Observed(s.(barsHeld := held, peak := Max(s.peak, bar.high), prev2 := s.prev, prev := bar.close),
                    HOLD, 0.0, mtm)
    else if EntryOk(s.prev2, s.prev, bar.close, p) then
      Observed(Position(true, bar.close, bar.close, 0, bar.close, s.prev), ENTER, 0.0, -half)
    else Observed(s.(prev2 := s.prev, prev := bar.close), FLAT, 0.0, 0.0)
  }

  /** A triggered exit divides by the previous close; a zero there raises in the code. */
  function ExitReturn(level: real, prev: real, half: real): real {
    if prev == 0.0 then 0.0 else (level / prev - 1.0) - half
  }

  predicate IsExit(a: Action) {
    a == EXIT_STOP || a == EXIT_TRAIL || a == EXIT_TIME
  }

  class ScalpBook {
    const params: Params
    var inPos: bool
    var entry: real
    var peak: real
    var barsHeld: int
    var prev: real
    var prev2: real

    constructor (params: Params)
      ensures this.params == params && State() == Position(false, 0.0, 0.0, 0, 0.0, 0.0)
    {
      this.params := params;
      inPos, entry, peak, barsHeld, prev, prev2 := false, 0.0, 0.0, 0, 0.0, 0.0;
    }

    function State(): Position
      reads this
    {
      Position(inPos, entry, peak, barsHeld, prev, prev2)
    }

    /** Step one bar. */
    method ObserveBar(bar: Bar) returns (action: Action, r: real)
      requires inPos && prev == 0.0 ==>!StopHit(entry, peak, bar, params) && !TrailHit(peak, bar, params)
      modifies this
      ensures var o := Observe(old(State()), bar, params); State() == o.after && action == o.action && r == o.r
    {
      action, r := FLAT, 0.0;
      var halfCost := params.cost / 2.0;
      if inPos {
        barsHeld := barsHeld + 1;
        var trailLevel := TrailLevel(peak, params);
        var stopLevel := StopLevel(entry, params);
        var mtm := if prev > 0.0 then bar.close / prev - 1.0 else 0.0;
        if bar.low <= stopLevel && stopLevel <= trailLevel {
          r, action := (stopLevel / prev - 1.0) - halfCost, EXIT_STOP;
          Flatten();
        } else if bar.low <= trailLevel {
          r, action := (trailLevel / prev - 1.0) - halfCost, EXIT_TRAIL;
          Flatten();
        } else if barsHeld >= params.maxHold {
          r, action := mtm - halfCost, EXIT_TIME;
          Flatten();
        } else {
          r, action := mtm, HOLD;
          peak := Max(peak, bar.high);
        }
      } else if EntryOk(prev2, prev, bar.close, params) {
        r, action := -halfCost, ENTER;
        inPos, entry, peak, barsHeld := true, bar.close, bar.close, 0;
      }
      prev2, prev := prev, bar.close;
    }

    method Flatten()
      modifies this`inPos, this`entry, this`peak, this`barsHeld
      ensures !inPos && entry == 0.0 && peak == 0.0 && barsHeld == 0
    {
      inPos, entry, peak, barsHeld := false, 0.0, 0.0, 0;
    }
  }

  // ---- momentum.py and momentum_backtest.py: the whole series at once ------------------------------

  /** Walk forward over the future bars; the number of bars held and the gross return. */
  method SimulateExit(entry: real, future: seq<Bar>, p: Params) returns (held: int, gross: real, ghost price: real)
    requires p.maxHold >= 1 && |future| >= 1 ==> entry != 0.0
    ensures p.maxHold >= 1 && |future| >= 1 ==>
              && gross == price / entry - 1.0 && 1 <= held <= |future|
              && forall bars: seq<Bar>, e: nat :: e < |bars| && bars[e].close == entry && bars[e + 1..] == future ==>
                   WalkMatches(WalkFrom(bars, p, e, e + 1, entry), bars, e, held, price)
    // nothing to walk over
    ensures !(p.maxHold >= 1 && |future| >= 1) ==>
              gross == 0.0 && held == if p.maxHold < |future| then p.maxHold else |future|
  {
    var peak := entry;
    var n := if p.maxHold < |future| then p.maxHold else |future|;
    if n <= 0 {
      return n, 0.0, 0.0;
    }
    for j := 0 to n
      invariant forall bars: seq<Bar>, e: nat :: e < |bars| && bars[e].close == entry && bars[e + 1..] == future ==>
                  WalkFrom(bars, p, e, e + 1, entry) == Continued(bars, p, e, j, peak)
    {
      var trailLevel := TrailLevel(peak, p);
      var stopLevel := StopLevel(entry, p);
      if future[j].low <= stopLevel && stopLevel <= trailLevel {
        StopGross(entry, p);
        return j + 1, -p.stopFrac, stopLevel;
      }
      if future[j].low <= trailLevel {
        return j + 1, trailLevel / entry - 1.0, trailLevel;
      }
      peak := Max(peak, future[j].high);
    }
    return n, future[n - 1].close / entry - 1.0, future[n - 1].close;
  }

  /** The walk after j uneventful bars: still going, or over by time with that bar. */
  function Continued(bars: seq<Bar>, p: Params, e: nat, j: nat, peak: real): Walk
    requires e + 1 + j <= |bars|
  {
    if j > 0 && j >= p.maxHold then Closed(e + j, bars[e + j].close) else WalkFrom(bars, p, e, e + 1 + j, peak)
  }

  /** The batch walk closes where the reference does, and otherwise at the last bar. */
  ghost predicate WalkMatches(w: Walk, bars: seq<Bar>, e: nat, held: int, price: real) {
    match w
    case Closed(x, px) => x == e + held && price == px
    case StillOpen(_) => e + held == |bars| - 1 && |bars| > 0 && price == bars[|bars| - 1].close
  }

  lemma StopLevelIs(entry: real, p: Params, q: real)
    requires q == 1.0 - p.stopFrac && entry != 0.0
    ensures StopLevel(entry, p) / entry == (entry * q) / entry
  {
  }

  lemma StopGross(entry: real, p: Params)
    requires entry != 0.0
    ensures StopLevel(entry, p) / entry - 1.0 == -p.stopFrac
  {
    var q := 1.0 - p.stopFrac;
    CancelFactor(entry, q);
    StopLevelIs(entry, p, q);
  }

  /** What the batch scan books: the completed trades, and one position that is still
      open at the end of the data, closed on the last bar.  An entry on the last bar
      itself is not taken. */
  function BatchTrades(bars: seq<Bar>, p: Params): seq<Trade> {
    TradesFrom(bars, p, 0) + ForcedClose(bars, OpenFrom(bars, p, 0))
  }

  function ForcedClose(bars: seq<Bar>, e: int): seq<Trade> {
    if 0 <= e < |bars| - 1 then [Trade(e, |bars| - 1, bars[|bars| - 1].close)] else []
  }

  /** Net return and length of a trade. */
  ghost predicate Books(t: Trade, bars: seq<Bar>, p: Params, ret: real, hold: int) {
    && t.entryBar < |bars| && hold == t.exitBar - t.entryBar
    && bars[t.entryBar].close != 0.0
    && ret == t.exitPrice / bars[t.entryBar].close - 1.0 - p.cost
  }

  method BacktestMomentum(bars: seq<Bar>, p: Params) returns (nets: seq<real>, holds: seq<int>)
    requires p.maxHold >= 1 && forall i :: 2 <= i < |bars| && EntryAt(bars, p, i) ==> bars[i].close != 0.0
    ensures |nets| == |holds| == |BatchTrades(bars, p)|
    ensures forall k :: 0 <= k < |nets| ==> Books(BatchTrades(bars, p)[k], bars, p, nets[k], holds[k])
  {
    hide BatchTrades, TradesFrom, OpenFrom, WalkFrom, EntryOk, Continued, ForcedClose;
    nets, holds := [], [];
    var i, n := 2, |bars|;
    ghost var done: seq<Trade> := [];
    TooEarly(bars, p);
    ScanStart(bars, p);
    while i < n - 1
      invariant Scanned(bars, p, i, done)
      invariant |nets| == |holds| == |done|
      invariant forall k :: 0 <= k < |done| ==> Books(done[k], bars, p, nets[k], holds[k])
    {
      if EntryOk(bars[i - 2].close, bars[i - 1].close, bars[i].close, p) {
        var held, gross, price := SimulateExit(bars[i].close, bars[i + 1..], p);
        nets := nets + [gross - p.cost];
        holds := holds + [held];
        assert WalkMatches(WalkFrom(bars, p, i, i + 1, bars[i].close), bars, i, held, price);
        ScanTake(bars, p, i, done, held, price);
        done := done + [Trade(i, i + held, price)];
        i := i + held + 1;
      } else {
        ScanSkip(bars, p, i, done);
        i := i + 1;
      }
    }
    Leftover(bars, p, i, done);
  }

  /** done are the batch trades before bar i, and the rest is what a scan from i gives. */
  ghost predicate Scanned(bars: seq<Bar>, p: Params, i: nat, done: seq<Trade>) {
    && 2 <= i && (|bars| < 2 ==> done == [])
    && (|bars| >= 2 ==>
          && i <= |bars|
          && BatchTrades(bars, p) == done + TradesFrom(bars, p, i) + ForcedClose(bars, OpenFrom(bars, p, i)))
  }

  lemma ScanStart(bars: seq<Bar>, p: Params)
    ensures Scanned(bars, p, 2, [])
  {
    TooEarly(bars, p);
    if |bars| >= 2 {
      assert [] + TradesFrom(bars, p, 2) == TradesFrom(bars, p, 2);
    }
  }

  lemma ScanSkip(bars: seq<Bar>, p: Params, i: nat, done: seq<Trade>)
    requires Scanned(bars, p, i, done) && i < |bars| - 1
    requires !EntryOk(bars[i - 2].close, bars[i - 1].close, bars[i].close, p)
    ensures Scanned(bars, p, i + 1, done)
  {
    assert !EntryAt(bars, p, i);
  }

  lemma ScanTake(bars: seq<Bar>, p: Params, i: nat, done: seq<Trade>, held: nat, price: real)
    requires Scanned(bars, p, i, done) && i < |bars| - 1 && 1 <= held <= |bars| - i - 1
    requires EntryOk(bars[i - 2].close, bars[i - 1].close, bars[i].close, p)
    requires WalkMatches(WalkFrom(bars, p, i, i + 1, bars[i].close), bars, i, held, price)
    ensures Scanned(bars, p, i + held + 1, done + [Trade(i, i + held, price)])
  {
    hide EntryOk;
    var w, t := WalkFrom(bars, p, i, i + 1, bars[i].close), Trade(i, i + held, price);
    assert EntryAt(bars, p, i);
    if w.Closed? {
      var rest := TradesFrom(bars, p, i + held + 1);
      assert TradesFrom(bars, p, i) == [t] + rest;
      assert done + ([t] + rest) == (done + [t]) + rest;
    } else {
      assert TradesFrom(bars, p, i) == [] && OpenFrom(bars, p, i) == i;
      assert TradesFrom(bars, p, |bars|) == [] && OpenFrom(bars, p, |bars|) == -1;
      assert (done + []) + [t] == ((done + [t]) + []) + [];
    }
  }

  /** No entry is possible before two closes are known. */
  lemma TooEarly(bars: seq<Bar>, p: Params)
    ensures |bars| >= 2 ==> TradesFrom(bars, p, 0) == TradesFrom(bars, p, 2)
    ensures |bars| >= 2 ==> OpenFrom(bars, p, 0) == OpenFrom(bars, p, 2)
    ensures |bars| < 2 ==> TradesFrom(bars, p, 0) == [] && OpenFrom(bars, p, 0) == -1
  {
    if |bars| >= 1 {
      assert !EntryAt(bars, p, 0);
      if |bars| >= 2 {
        assert !EntryAt(bars, p, 1);
      } else {
        assert TradesFrom(bars, p, 1) == [] && OpenFrom(bars, p, 1) == -1;
      }
    }
  }

  /** Nothing is completed from the last bar on. */
  lemma Leftover(bars: seq<Bar>, p: Params, i: nat, done: seq<Trade>)
    requires Scanned(bars, p, i, done) && i >= |bars| - 1
    ensures BatchTrades(bars, p) == done
  {
    TooEarly(bars, p);
    if |bars| >= 2 {
      assert TradesFrom(bars, p, |bars|) == [] && OpenFrom(bars, p, |bars|) == -1;
    }
  }

  // ---- the two agree -------------------------------------------------------------------------------------

  /** The trades a book completes on the bars from k on; e is the entry bar while it holds. */
  ghost function StreamTrades(bars: seq<Bar>, p: Params, k: nat, s: Position, e: nat): seq<Trade>
    requires k <= |bars|
    decreases |bars| - k
  {
    if k == |bars| then []
    else
      var o := Observe(s, bars[k], p);
      (if IsExit(o.action) then [Trade(e, k, o.price)] else [])
      + StreamTrades(bars, p, k + 1, o.after, if o.action == ENTER then k else e)
  }

  ghost function StreamEnds(bars: seq<Bar>, p: Params, k: nat, s: Position): Position
    requires k <= |bars|
    decreases |bars| - k
  {
    if k == |bars| then s else StreamEnds(bars, p, k + 1, Observe(s, bars[k], p).after)
  }

  /** A book standing before bar k: flat, or holding the position entered on bar e. */
  ghost predicate At(s: Position, bars: seq<Bar>, k: nat, e: nat) {
    && k <= |bars| && s.prev == CloseAt(bars, k - 1) && s.prev2 == CloseAt(bars, k - 2)
    && (s.inPos ==> e < k && s.entry == bars[e].close && s.barsHeld == k - 1 - e)
  }

  lemma {:induction false} StreamFollows(bars: seq<Bar>, p: Params, k: nat, s: Position, e: nat)
    requires At(s, bars, k, e)
    ensures !s.inPos ==> StreamTrades(bars, p, k, s, e) == TradesFrom(bars, p, k)
    ensures !s.inPos ==> (StreamEnds(bars, p, k, s).inPos <==> OpenFrom(bars, p, k) >= 0)
    ensures s.inPos ==> match WalkFrom(bars, p, e, k, s.peak)
      case Closed(x, price) =>
        k <= x < |bars|
        && StreamTrades(bars, p, k, s, e) == [Trade(e, x, price)] + TradesFrom(bars, p, x + 1)
        && (StreamEnds(bars, p, k, s).inPos <==> OpenFrom(bars, p, x + 1) >= 0)
      case StillOpen(_) => StreamTrades(bars, p, k, s, e) == [] && StreamEnds(bars, p, k, s).inPos
    decreases |bars| - k
  {
    if k < |bars| {
      var o := Observe(s, bars[k], p);
      var e' := if o.action == ENTER then k else e;
      assert At(o.after, bars, k + 1, e');
      StreamFollows(bars, p, k + 1, o.after, e');
      if s.inPos {
        WalkEndsLater(bars, p, e, k, s.peak);
      }
    }
  }

  const START: Position := Position(false, 0.0, 0.0, 0, 0.0, 0.0)

  /** Fed bar by bar, the book completes the trades of the batch scan, except that the
      batch also closes a position still open at the end; and the stream ends in a
      position exactly when the scan leaves one open (which may be on the last bar). */
  lemma StreamAgreesWithBatch(bars: seq<Bar>, p: Params)
    ensures BatchTrades(bars, p) == StreamTrades(bars, p, 0, START, 0) + ForcedClose(bars, OpenFrom(bars, p, 0))
    ensures StreamEnds(bars, p, 0, START).inPos <==> OpenFrom(bars, p, 0) >= 0
  {
    StreamFollows(bars, p, 0, START, 0);
  }

  lemma OneBar(bars: seq<Bar>, p: Params, k: nat, s: Position, e: nat)
    requires k < |bars| && At(s, bars, k, e)
    ensures var o := Observe(s, bars[k], p);
      var e' := if o.action == ENTER then k else e;
      && At(o.after, bars, k + 1, e')
      && StreamTrades(bars, p, k, s, e)
         == (if IsExit(o.action) then [Trade(e, k, o.price)] else []) + StreamTrades(bars, p, k + 1, o.after, e')
      && StreamEnds(bars, p, k, s) == StreamEnds(bars, p, k + 1, o.after)
      && (IsExit(o.action) ==>
            o.price == if o.action == EXIT_STOP then StopLevel(s.entry, p)
                       else if o.action == EXIT_TRAIL then TrailLevel(s.peak, p) else bars[k].close)
  {
  }

  lemma NothingLeft(bars: seq<Bar>, p: Params, s: Position, e: nat)
    ensures StreamTrades(bars, p, |bars|, s, e) == [] && StreamEnds(bars, p, |bars|, s) == s
  {
  }

  /** A live run of the book over a series. */
  method RunBook(bars: seq<Bar>, p: Params) returns (trades: seq<Trade>, open: bool)
    requires forall i :: 0 <= i < |bars| ==> bars[i].close != 0.0
    ensures BatchTrades(bars, p) == trades + ForcedClose(bars, OpenFrom(bars, p, 0))
    ensures open <==> OpenFrom(bars, p, 0) >= 0
  {
    hide TradesFrom, OpenFrom, ForcedClose, BatchTrades, Observe, StopLevel, TrailLevel, StreamTrades, StreamEnds;
    var book := new ScalpBook(p);
    trades := [];
    var entryBar := 0;
    for k := 0 to |bars|
      invariant fresh(book) && book.params == p && At(book.State(), bars, k, entryBar)
      invariant StreamTrades(bars, p, 0, START, 0) == trades + StreamTrades(bars, p, k, book.State(), entryBar)
      invariant StreamEnds(bars, p, 0, START) == StreamEnds(bars, p, k, book.State())
    {
      var stop, trail := StopLevel(book.entry, p), TrailLevel(book.peak, p);
      OneBar(bars, p, k, book.State(), entryBar);
      var action, r := book.ObserveBar(bars[k]);
      if action == ENTER {
        entryBar := k;
      } else if IsExit(action) {
        var price := if action == EXIT_STOP then stop else if action == EXIT_TRAIL then trail else bars[k].close;
        trades := trades + [Trade(entryBar, k, price)];
      }
    }
    NothingLeft(bars, p, book.State(), entryBar);
    StreamAgreesWithBatch(bars, p);
    open := book.inPos;
  }

  /** Disjoint trades in order, within bars i .. n-1, each holding 1 to max bars. */
  ghost predicate Apart(ts: seq<Trade>, i: nat, n: nat, max: int) {
    && (forall k :: 0 <= k < |ts| ==>
          i <= ts[k].entryBar < ts[k].exitBar < n && ts[k].exitBar - ts[k].entryBar <= max)
    && (forall k, l :: 0 <= k < l < |ts| ==> ts[k].exitBar < ts[l].entryBar)
  }

  lemma ApartPrepend(t: Trade, rest: seq<Trade>, i: nat, n: nat, max: int)
    requires i <= t.entryBar < t.exitBar < n && t.exitBar - t.entryBar <= max
    requires Apart(rest, t.exitBar + 1, n, max)
    ensures Apart([t] + rest, i, n, max)
  {
  }

  lemma ApartEarlier(ts: seq<Trade>, i: nat, earlier: nat, n: nat, max: int)
    requires Apart(ts, i, n, max) && earlier <= i
    ensures Apart(ts, earlier, n, max)
  {
  }

  /** Nothing, or the one trade closed on the last bar. */
  lemma ForcedIsApart(bars: seq<Bar>, e: int, i: nat, max: int)
    requires e == -1 || (e == i < |bars| && |bars| - e <= max + 1)
    ensures Apart([] + ForcedClose(bars, e), i, |bars|, max)
  {
  }

  lemma {:induction false} ScanIsApart(bars: seq<Bar>, p: Params, i: nat)
    requires i <= |bars| && p.maxHold >= 1
    ensures Apart(TradesFrom(bars, p, i) + ForcedClose(bars, OpenFrom(bars, p, i)), i, |bars|, p.maxHold)
    decreases |bars| - i
  {
    hide EntryAt, WalkFrom, Apart, ForcedClose;
    if i == |bars| {
      ForcedIsApart(bars, -1, i, p.maxHold);
    } else {
      if !EntryAt(bars, p, i) {
        ScanIsApart(bars, p, i + 1);
        ApartEarlier(TradesFrom(bars, p, i) + ForcedClose(bars, OpenFrom(bars, p, i)), i + 1, i, |bars|, p.maxHold);
      } else {
        WalkEndsLater(bars, p, i, i + 1, bars[i].close);
        WalkIsShort(bars, p, i, i + 1, bars[i].close);
        var w := WalkFrom(bars, p, i, i + 1, bars[i].close);
        if w.Closed? {
          ScanIsApart(bars, p, w.bar + 1);
          var rest, forced := TradesFrom(bars, p, w.bar + 1), ForcedClose(bars, OpenFrom(bars, p, w.bar + 1));
          ApartPrepend(Trade(i, w.bar, w.price), rest + forced, i, |bars|, p.maxHold);
          assert ([Trade(i, w.bar, w.price)] + rest) + forced == [Trade(i, w.bar, w.price)] + (rest + forced);
        } else {
          ForcedIsApart(bars, i, i, p.maxHold);
        }
      }
    }
  }

  /** The trades of the batch scan, the one closed at the end of the data included, never
      overlap, and each holds between 1 and max_hold bars. */
  lemma TradesDoNotOverlap(bars: seq<Bar>, p: Params)
    requires p.maxHold >= 1
    ensures Apart(BatchTrades(bars, p), 0, |bars|, p.maxHold)
  {
    ScanIsApart(bars, p, 0);
  }

  lemma {:induction false} WalkIsShort(bars: seq<Bar>, p: Params, e: nat, i: nat, peak: real)
    requires e < i <= |bars| && p.maxHold >= 1 && i - e <= p.maxHold
    ensures var w := WalkFrom(bars, p, e, i, peak);
      if w.Closed? then w.bar - e <= p.maxHold else |bars| - e <= p.maxHold
    decreases |bars| - i
  {
    if i < |bars| && i - e < p.maxHold {
      WalkIsShort(bars, p, e, i + 1, Max(peak, bars[i].high));
    }
  }

  // ---- returns telescope ------------------------------------------------------------------------------------

  /** The compounded per-bar returns the book reports on bars k .. m-1. */
  ghost function Compound(bars: seq<Bar>, p: Params, k: nat, s: Position, m: nat): real
    requires k <= m <= |bars|
    decreases m - k
  {
    if k == m then 1.0
    else var o := Observe(s, bars[k], p); Times(1.0 + o.r, Compound(bars, p, k + 1, o.after, m))
  }

  lemma GrowOne(r: real, level: real, prev: real, rest: real)
    requires prev != 0.0 && r == level / prev - 1.0
    ensures Times(Times(1.0 + r, rest), prev) == Times(rest, level)
  {
    var q := level / prev;
    assert q * prev == level;
    assert (q * rest) * prev == rest * (q * prev);
  }

  lemma TimesOne(a: real)
    ensures Times(1.0, a) == a
  {
  }

  /** The return a held bar reports, when there are no costs. */
  lemma CostFree(s: Position, bar: Bar, p: Params)
    requires p.cost == 0.0 && s.inPos && s.prev > 0.0
    ensures var o := Observe(s, bar, p);
      o.r == (if o.action == HOLD then bar.close else o.price) / s.prev - 1.0
  {
  }

  /** Without costs the returns of a completed trade compound to exit over entry. */
  lemma {:induction false} ReturnsTelescope(bars: seq<Bar>, p: Params, k: nat, s: Position, e: nat)
    requires p.cost == 0.0 && forall i :: 0 <= i < |bars| ==> bars[i].close > 0.0
    requires At(s, bars, k, e) && s.inPos
    ensures var w := WalkFrom(bars, p, e, k, s.peak);
      w.Closed? ==> k <= w.bar < |bars| && Times(Compound(bars, p, k, s, w.bar + 1), s.prev) == w.price
    decreases |bars| - k
  {
    hide StopHit, TrailHit, StopLevel, TrailLevel, EntryOk, Times, ExitReturn;
    if k < |bars| {
      var o := Observe(s, bars[k], p);
      WalkEndsLater(bars, p, e, k, s.peak);
      CostFree(s, bars[k], p);
      var w := WalkFrom(bars, p, e, k, s.peak);
      if o.action == HOLD {
        ReturnsTelescope(bars, p, k + 1, o.after, e);
        if w.Closed? {
          GrowOne(o.r, bars[k].close, s.prev, Compound(bars, p, k + 1, o.after, w.bar + 1));
        }
      } else {
        assert w.Closed? && w.bar == k && w.price == o.price;
        GrowOne(o.r, w.price, s.prev, Compound(bars, p, k + 1, o.after, k + 1));
        TimesOne(w.price);
      }
    }
  }

  /** A flat book that has seen the bars before e. */
  ghost function FlatBefore(bars: seq<Bar>, e: nat): Position
    requires e < |bars|
  {
    Position(false, 0.0, 0.0, 0, CloseAt(bars, e - 1), CloseAt(bars, e - 2))
  }

  /** From the entry bar itself: the entry bar's return is zero, and the rest is exit / entry. */
  lemma TradeReturnsTelescope(bars: seq<Bar>, p: Params, e: nat, x: nat, price: real)
    requires p.cost == 0.0 && forall i :: 0 <= i < |bars| ==> bars[i].close > 0.0
    requires e < |bars| && EntryAt(bars, p, e) && WalkFrom(bars, p, e, e + 1, bars[e].close) == Closed(x, price)
    ensures e < x < |bars| && Compound(bars, p, e, FlatBefore(bars, e), x + 1) == price / bars[e].close
  {
    hide StopHit, TrailHit, StopLevel, TrailLevel, Times, ExitReturn, WalkFrom;
    var o := Observe(FlatBefore(bars, e), bars[e], p);
    assert At(o.after, bars, e + 1, e);
    ReturnsTelescope(bars, p, e + 1, o.after, e);
    var c := Compound(bars, p, e + 1, o.after, x + 1);
    TimesOne(c);
    assert Compound(bars, p, e, FlatBefore(bars, e), x + 1) == Times(1.0 + o.r, c);
    QuotientOf(c, bars[e].close, price);
  }

  lemma QuotientOf(c: real, d: real, n: real)
    requires d != 0.0 && Times(c, d) == n
    ensures n / d == c
  {
    CancelFactor(d, c);
  }
}
