/** Four implementations of the episode rule: treasuryforge/funding_persistence.py,
    treasuryforge/carry_backtest.py, treasuryforge/signals/funding.py and
    treasuryforge/backtest/funding_backtest.py. */
module Funding {
  import opened Sums
  import opened Wrappers
  import opened FundingEpisodes

  // ---- funding_persistence.py ------------------------------------------------------------

  datatype PersistenceStats = PersistenceStats(nEpisodes: int, durations: seq<int>, breakeven: int, lastCensored: bool)

  datatype Error = ExitAboveEnter

  method FundingPersistence(h: seq<real>, r: Rates, breakeven: int) returns (res: Result<PersistenceStats, Error>)
    ensures res.Err? <==> r.exit > r.enter
    ensures res.Ok? ==> res.value.durations == Durations(Episodes(h, r, 0))
    ensures res.Ok? ==> res.value.nEpisodes == |Episodes(h, r, 0)| && res.value.breakeven == breakeven
    ensures res.Ok? ==> (res.value.lastCensored <==> h != [] && Inside(Episodes(h, r, 0), |h| - 1))
  {
    hide Rest, Episodes, Pass, Durations, Inside;
    if r.exit > r.enter {
      return Err(ExitAboveEnter);
    }
    var durations: seq<int> := [];
    var inRegime, dur := false, 0;
    ghost var done: seq<Episode>, start := [], -1;
    PassStart(h, r);
    NoDurations();
    for i := 0 to |h|
      invariant Pass(h, r, i, done, start)
      invariant inRegime <==> start >= 0
      invariant inRegime ==> start < i && dur == i - start
      invariant durations == Durations(done)
    {
      var f := h[i];
      PassStep(h, r, i, done, start);
      if !inRegime {
        if f >= r.enter {
          inRegime, dur := true, 1;
        }
      } else if f < r.exit {
        DurationsAppend(done, Episode(start, i));
        durations := durations + [dur];
        inRegime := false;
      } else {
        dur := dur + 1;
      }
      done, start := NextDone(h, r, i, done, start), NextOpen(h, r, i, start);
    }
    var censored := inRegime;
    PassEnd(h, r, done, start);
    OpenAtEnd(h, r, done, start);
    if inRegime {
      DurationsAppend(done, Episode(start, |h|));
      durations := durations + [dur];
    }
    assert durations == Durations(Episodes(h, r, 0));
    return Ok(PersistenceStats(|durations|, durations, breakeven, censored));
  }

  lemma NoDurations()
    ensures Durations([]) == []
  {
  }

  /** An episode is open at the end exactly when the last interval lies in one. */
  lemma OpenAtEnd(h: seq<real>, r: Rates, done: seq<Episode>, start: int)
    requires Pass(h, r, |h|, done, start)
    ensures start >= 0 <==> h != [] && Inside(Episodes(h, r, 0), |h| - 1)
  {
    hide Episodes, Rest;
    if h != [] {
      OpenMeansInside(h, r, |h| - 1, done, start);
    }
  }

  // ---- carry_backtest.py ------------------------------------------------------------------

  datatype CarryBtResult = CarryBtResult(nPositions: int, totalFunding: real, totalCost: real,
                                         nets: seq<real>, holds: seq<int>)

  function Gate(minAge: int): int {
    if minAge > 1 then minAge else 1
  }

  /** The episode is long enough by interval i for the gate. */
  predicate Entered(start: int, i: int, k: int) {
    start >= 0 && i - start >= k
  }

  method BacktestCarry(h: seq<real>, r: Rates, roundTrip: real, minAge: int) returns (res: CarryBtResult)
    ensures res.holds == Holds(Episodes(h, r, 0), Gate(minAge))
    ensures |res.nets| == |res.holds| == res.nPositions
    ensures Within(h, Episodes(h, r, 0))
    ensures res.nets == LessCost(Collected(h, Episodes(h, r, 0), Gate(minAge)), roundTrip)
    ensures res.totalFunding == Total(Collected(h, Episodes(h, r, 0), Gate(minAge)))
    ensures res.totalCost == res.nPositions as real * roundTrip
  {
    hide Rest, Episodes, Pass, Booked, RangeSum, Holds, Collected, Total, LessCost, Within;
    var inEpisode, age, inPos, collected, hold := false, 0, false, 0.0, 0;
    var nets: seq<real>, holds: seq<int>, totalFunding, nCost := [], [], 0.0, 0;
    var k := Gate(minAge);
    ghost var done: seq<Episode>, start := [], -1;
    PassStart(h, r);
    BookedNothing(h, k, roundTrip);
    for i := 0 to |h|
      invariant Pass(h, r, i, done, start)
      invariant inEpisode <==> start >= 0
      invariant inEpisode ==> start < i && age == i - start
      invariant Holding(h, start, i, k, inPos, hold, collected)
      invariant Booked(h, done, k, roundTrip, nets, holds, totalFunding, nCost)
    {
      var f := h[i];
      PassStep(h, r, i, done, start);
      HoldingStep(h, r, start, i, k, inPos, hold, collected);
      if !inEpisode {
        if f >= r.enter {
          inEpisode, age := true, 1;
        }
      } else if f < r.exit {
        BookedAppend(h, done, Episode(start, i), k, roundTrip, nets, holds, totalFunding, nCost);
        if inPos {
          nets, holds := nets + [collected - roundTrip], holds + [hold];
          totalFunding, nCost := totalFunding + collected, nCost + 1;
          inPos, collected, hold := false, 0.0, 0;
        }
        inEpisode, age := false, 0;
      } else {
        age := age + 1;
      }
      if inEpisode && !inPos && age >= k {
        inPos := true;
      }
      if inPos {
        collected, hold := collected + f, hold + 1;
      }
      done, start := NextDone(h, r, i, done, start), NextOpen(h, r, i, start);
    }
    PassEnd(h, r, done, start);
    if inEpisode {
      BookedAppend(h, done, Episode(start, |h|), k, roundTrip, nets, holds, totalFunding, nCost);
    }
    if inPos {
      nets, holds := nets + [collected - roundTrip], holds + [hold];
      totalFunding, nCost := totalFunding + collected, nCost + 1;
    }
    BookedMeans(h, Episodes(h, r, 0), k, roundTrip, nets, holds, totalFunding, nCost);
    return CarryBtResult(|nets|, totalFunding, nCost as real * roundTrip, nets, holds);
  }

  /** A position is held exactly from the gate on, with its length and its funding. */
  ghost predicate Holding(h: seq<real>, start: int, i: nat, k: int, inPos: bool, hold: int, collected: real) {
    && k >= 1 && start < i <= |h|
    && (inPos <==> Entered(start, i, k))
    && (if inPos then hold == i - start - k + 1 && collected == RangeSum(h, start + k - 1, i)
        else hold == 0 && collected == 0.0)
  }

  lemma HoldingStep(h: seq<real>, r: Rates, start: int, i: nat, k: int, inPos: bool, hold: int, collected: real)
    requires Holding(h, start, i, k, inPos, hold, collected) && i < |h|
    ensures var next := NextOpen(h, r, i, start);
      if next < 0 then Holding(h, next, i + 1, k, false, 0, 0.0)
      else if i + 1 - next >= k then Holding(h, next, i + 1, k, true, hold + 1, collected + h[i])
      else Holding(h, next, i + 1, k, false, 0, 0.0)
  {
    var next := NextOpen(h, r, i, start);
    if next >= 0 && i + 1 - next >= k {
      RangeSumGrows(h, next + k - 1, i);
    }
  }

  lemma RangeSumGrows(h: seq<real>, a: nat, b: nat)
    requires a <= b < |h|
    ensures RangeSum(h, a, b + 1) == RangeSum(h, a, b) + h[b]
    ensures RangeSum(h, b, b) == 0.0
  {
  }

  function LessCost(xs: seq<real>, c: real): seq<real> {
    seq(|xs|, i requires 0 <= i < |xs| => xs[i] - c)
  }

  /** The books hold exactly the positions of the episodes done. */
  ghost predicate Booked(h: seq<real>, done: seq<Episode>, k: int, roundTrip: real,
                         nets: seq<real>, holds: seq<int>, totalFunding: real, nCost: int) {
    && Within(h, done) && k >= 1
    && holds == Holds(done, k)
    && nets == LessCost(Collected(h, done, k), roundTrip)
    && totalFunding == Total(Collected(h, done, k))
    && nCost == |nets| == |holds|
  }

  lemma BookedNothing(h: seq<real>, k: int, roundTrip: real)
    requires k >= 1
    ensures Booked(h, [], k, roundTrip, [], [], 0.0, 0)
  {
  }

  lemma BookedMeans(h: seq<real>, es: seq<Episode>, k: int, roundTrip: real,
                    nets: seq<real>, holds: seq<int>, totalFunding: real, nCost: int)
    requires Booked(h, es, k, roundTrip, nets, holds, totalFunding, nCost)
    ensures Within(h, es) && k >= 1 && holds == Holds(es, k)
    ensures nets == LessCost(Collected(h, es, k), roundTrip) && totalFunding == Total(Collected(h, es, k))
    ensures nCost == |nets| == |holds|
  {
  }

  lemma BookedAppend(h: seq<real>, done: seq<Episode>, e: Episode, k: int, roundTrip: real,
                     nets: seq<real>, holds: seq<int>, totalFunding: real, nCost: int)
    requires e.from < e.to <= |h|
    requires Booked(h, done, k, roundTrip, nets, holds, totalFunding, nCost)
    ensures Within(h, done + [e])
    ensures e.Length() < k ==> Booked(h, done + [e], k, roundTrip, nets, holds, totalFunding, nCost)
    ensures e.Length() >= k ==>
              var c := RangeSum(h, e.from + k - 1, e.to);
              Booked(h, done + [e], k, roundTrip, nets + [c - roundTrip], holds + [e.Length() - k + 1],
                     totalFunding + c, nCost + 1)
  {
    hide Holds, Collected, Total, RangeSum;
    var cs := Collected(h, done, k);
    HoldsAppend(done, e, k);
    CollectedAppend(h, done, e, k);
    if e.Length() >= k {
      TotalAppend(cs, RangeSum(h, e.from + k - 1, e.to));
    } else {
      assert cs + [] == cs && Holds(done, k) + [] == Holds(done, k);
    }
  }

  /** The numbers, in order, of the episodes that last for k intervals. */
  ghost predicate Lasting(es: seq<Episode>, k: int, at: seq<nat>) {
    && (forall m, n :: 0 <= m < n < |at| ==> at[m] < at[n])
    && (forall m :: 0 <= m < |at| ==> at[m] < |es| && es[at[m]].to - es[at[m]].from >= k)
    && (forall j :: 0 <= j < |es| && es[j].to - es[j].from >= k ==> j in at)
  }

  lemma {:induction false} RangeIsSlice(h: seq<real>, a: nat, b: nat)
    requires a <= b <= |h|
    ensures RangeSum(h, a, b) == Total(h[a..b])
    decreases b - a
  {
    if a < b {
      RangeIsSlice(h, a, b - 1);
      assert h[a..b] == h[a..b - 1] + [h[b - 1]];
      TotalAppend(h[a..b - 1], h[b - 1]);
    }
  }

  /** What is held in each, and what it collects. */
  ghost predicate HeldIn(h: seq<real>, es: seq<Episode>, k: int, at: seq<nat>, holds: seq<int>, got: seq<real>)
    requires Within(h, es) && k >= 1
  {
    && Lasting(es, k, at) && |holds| == |got| == |at|
    && forall m :: 0 <= m < |at| ==>
         && holds[m] == es[at[m]].to - (es[at[m]].from + k - 1)
         && got[m] == Total(h[es[at[m]].from + k - 1..es[at[m]].to])
  }

  lemma HeldInNext(h: seq<real>, es: seq<Episode>, e: Episode, k: int, at: seq<nat>, holds: seq<int>, got: seq<real>)
    requires e.from < e.to <= |h| && Within(h, es) && Within(h, es + [e]) && k >= 1 && HeldIn(h, es, k, at, holds, got)
    ensures e.to - e.from < k ==> HeldIn(h, es + [e], k, at, holds, got)
    ensures e.to - e.from >= k ==>
              var c := Total(h[e.from + k - 1..e.to]);
              HeldIn(h, es + [e], k, at + [|es|], holds + [e.to - (e.from + k - 1)], got + [c])
  {
    hide Total;
    var next := es + [e];
    assert next[|es|] == e && forall j :: 0 <= j < |es| ==> next[j] == es[j];
    if e.to - e.from >= k {
      var at' := at + [|es|];
      assert at'[|at|] == |es|;
      assert forall j :: 0 <= j < |es| && es[j].to - es[j].from >= k ==> j in at;
    }
  }

  lemma LastingNext(h: seq<real>, es: seq<Episode>, e: Episode, k: int, at: seq<nat>)
    requires e.from < e.to <= |h| && Within(h, es) && Within(h, es + [e]) && k >= 1
    requires HeldIn(h, es, k, at, Holds(es, k), Collected(h, es, k))
    ensures var more := if e.to - e.from >= k then at + [|es|] else at;
      HeldIn(h, es + [e], k, more, Holds(es + [e], k), Collected(h, es + [e], k))
  {
    hide RangeSum, Total, HeldIn, Holds, Collected, Within;
    HoldsAppend(es, e, k);
    CollectedAppend(h, es, e, k);
    HeldInNext(h, es, e, k, at, Holds(es, k), Collected(h, es, k));
    if e.to - e.from >= k {
      RangeIsSlice(h, e.from + k - 1, e.to);
    } else {
      assert Holds(es, k) + [] == Holds(es, k) && Collected(h, es, k) + [] == Collected(h, es, k);
    }
  }

  lemma {:induction false} LastingPositions(h: seq<real>, es: seq<Episode>, k: int) returns (at: seq<nat>)
    requires Within(h, es) && k >= 1
    ensures HeldIn(h, es, k, at, Holds(es, k), Collected(h, es, k))
  {
    at := [];
    if es != [] {
      hide HeldIn, Holds, Collected;
      var front, e := es[..|es| - 1], es[|es| - 1];
      assert front + [e] == es;
      at := LastingPositions(h, front, k);
      LastingNext(h, front, e, k, at);
      at := if e.to - e.from >= k then at + [|front|] else at;
    }
  }

  /** The positions of the backtest, from the series alone: one for each episode that lasts for
      min_age intervals, held from the last of these to the end of the episode, and worth the
      funding of the intervals held less a round trip. */
  lemma CarryPositions(h: seq<real>, r: Rates, minAge: int, roundTrip: real) returns (at: seq<nat>)
    ensures Within(h, Episodes(h, r, 0))
    ensures var es, k := Episodes(h, r, 0), if minAge > 1 then minAge else 1;
      var holds, nets := Holds(es, Gate(minAge)), LessCost(Collected(h, es, Gate(minAge)), roundTrip);
      && Lasting(es, k, at) && |holds| == |nets| == |at|
      && forall m :: 0 <= m < |at| ==>
           && holds[m] == es[at[m]].to - (es[at[m]].from + k - 1)
           && nets[m] == Total(h[es[at[m]].from + k - 1..es[at[m]].to]) - roundTrip
  {
    hide Episodes, Total, Collected, Holds, Lasting;
    EpisodesAreMaximal(h, r, 0);
    at := LastingPositions(h, Episodes(h, r, 0), Gate(minAge));
  }

  // ---- signals/funding.py ---------------------------------------------------------------------

  datatype Action = ENTER | HOLD | EXIT | FLAT

  datatype CarryParams = CarryParams(enterRate: real, exitRate: real, feePerLeg: real, legsRoundTrip: int) {
    predicate Valid() {
      exitRate <= enterRate
    }

    function Rates(): Rates {
      FundingEpisodes.Rates.Rates(enterRate, exitRate)
    }

    function EntryCost(): real {
      (legsRoundTrip as real / 2.0) * feePerLeg
    }

    function ExitCost(): real {
      (legsRoundTrip as real / 2.0) * feePerLeg
    }
  }

  datatype SignalState = SignalState(inPos: bool, age: int)

  function AdvancedAge(age: int, rate: real, r: Rates): int {
    if age == 0 then (if rate >= r.enter then 1 else 0)
    else if rate < r.exit then 0 else age + 1
  }

  /** What decide answers, and the state it leaves. */
  function Decided(s: SignalState, rate: real, r: Rates, k: int): (SignalState, Action) {
    var age := AdvancedAge(s.age, rate, r);
    if s.inPos then
      if age == 0 then (SignalState(false, 0), EXIT) else (SignalState(true, age), HOLD)
    else if age >= k then (SignalState(true, age), ENTER)
    else (SignalState(false, age), FLAT)
  }

  class FundingCarrySignal {
    const p: CarryParams
    const minAge: int
    var inPosition: bool
    var age: int

    constructor (p: CarryParams, minAge: int)
      requires p.Valid()
      ensures this.p == p && this.minAge == minAge && State() == SignalState(false, 0)
    {
      this.p, this.minAge, inPosition, age := p, minAge, false, 0;
    }

    function State(): SignalState
      reads this
    {
      SignalState(inPosition, age)
    }

    method AdvanceAge(rate: real)
      modifies this`age
      ensures age == AdvancedAge(old(age), rate, p.Rates())
    {
      if age == 0 {
        if rate >= p.enterRate {
          age := 1;
        }
      } else if rate < p.exitRate {
        age := 0;
      } else {
        age := age + 1;
      }
    }

    method Decide(rate: real) returns (a: Action)
      modifies this
      ensures (State(), a) == Decided(old(State()), rate, p.Rates(), Gate(minAge))
    {
      AdvanceAge(rate);
      if inPosition {
        if age == 0 {
          inPosition := false;
          return EXIT;
        }
        return HOLD;
      }
      if age >= Gate(minAge) {
        inPosition := true;
        return ENTER;
      }
      return FLAT;
    }
  }

  /** The signal tracks the open episode and holds exactly from the gate on. */
  predicate InStep(s: SignalState, start: int, i: int, k: int) {
    && start < i && (if start < 0 then s.age == 0 else s.age == i - start)
    && (s.inPos <==> Entered(start, i, k))
  }

  lemma DecideStep(h: seq<real>, r: Rates, i: nat, start: int, s: SignalState, k: int)
    requires i < |h| && InStep(s, start, i, k) && k >= 1
    ensures var (next, a) := Decided(s, h[i], r, k);
      && InStep(next, NextOpen(h, r, i, start), i + 1, k)
      // the position runs from ENTER to the interval before EXIT
      && (a == EXIT <==> Entered(start, i, k) && h[i] < r.exit)
      && (a == ENTER || a == HOLD <==> next.inPos)
      && (a == ENTER <==> !s.inPos && next.inPos)
      && (a == ENTER ==> i + 1 - NextOpen(h, r, i, start) == k)
  {
  }

  /** The lengths of the signal's ENTER .. EXIT runs over a series. */
  method SignalRuns(h: seq<real>, p: CarryParams, minAge: int) returns (runs: seq<int>)
    requires p.Valid()
    ensures runs == Holds(Episodes(h, p.Rates(), 0), Gate(minAge))
  {
    hide Rest, Episodes, Pass, Decided;
    var sig := new FundingCarrySignal(p, minAge);
    var k := Gate(minAge);
    runs := [];
    var run := 0;
    ghost var r := p.Rates();
    ghost var done: seq<Episode>, start := [], -1;
    PassStart(h, r);
    for i := 0 to |h|
      invariant fresh(sig) && sig.p == p && sig.minAge == minAge
      invariant Pass(h, r, i, done, start) && InStep(sig.State(), start, i, k)
      invariant run == if sig.inPosition then i - start - k + 1 else 0
      invariant runs == Holds(done, k)
    {
      PassStep(h, r, i, done, start);
      DecideStep(h, r, i, start, sig.State(), k);
      ghost var before := sig.State();
      var a := sig.Decide(h[i]);
      if start >= 0 && h[i] < r.exit {
        HoldsAppend(done, Episode(start, i), k);
      }
      done, start := NextDone(h, r, i, done, start), NextOpen(h, r, i, start);
      if a == ENTER || a == HOLD {
        run := run + 1;
      } else if a == EXIT {
        runs := runs + [run];
        run := 0;
      }
    }
    PassEnd(h, r, done, start);
    if start >= 0 {
      HoldsAppend(done, Episode(start, |h|), k);
    }
    if run > 0 {
      runs := runs + [run];
    }
  }

  // ---- backtest/funding_backtest.py --------------------------------------------------------------

  datatype FundingBacktestResult = FundingBacktestResult(
    nets: seq<real>, intervalsInPosition: int, nTrades: int, totalReturn: real, equityCurve: seq<real>)

  /** Summed durations. */
  function TotalLength(es: seq<Episode>): int {
    if es == [] then 0 else TotalLength(es[..|es| - 1]) + es[|es| - 1].Length()
  }

  /** Funding accrued over all episodes. */
  function TotalAccrued(h: seq<real>, es: seq<Episode>): real
    requires Within(h, es)
  {
    if es == [] then 0.0
    else TotalAccrued(h, es[..|es| - 1]) + RangeSum(h, es[|es| - 1].from, es[|es| - 1].to)
  }

  /** What interval i returns: its funding when it lies in an episode, less a cost where one
      begins and where one has just ended. */
  ghost function NetOn(h: seq<real>, p: CarryParams, es: seq<Episode>, i: nat): real
    requires i < |h|
  {
    var now, before := Inside(es, i), Inside(es, i - 1);
    (if now then h[i] else 0.0)
    - (if now && !before then p.EntryCost() else 0.0)
    - (if before && !now then p.ExitCost() else 0.0)
  }

  /** Each point of the curve is the one before it, grown by the return of its interval. */
  ghost predicate Compounds(xs: seq<real>, curve: seq<real>) {
    && |curve| == |xs| && (xs != [] ==> curve[0] == 1.0 + xs[0])
    && forall i, j :: 0 <= i < |xs| && j == i + 1 < |xs| ==> curve[j] == curve[i] * (1.0 + xs[j])
  }

  method CompoundCurve(xs: seq<real>) returns (curve: seq<real>)
    ensures Compounds(xs, curve)
  {
    curve := [];
    var acc := 1.0;
    for i := 0 to |xs|
      invariant Compounds(xs[..i], curve) && acc == if i == 0 then 1.0 else curve[i - 1]
    {
      ghost var before := curve;
      acc := acc * (1.0 + xs[i]);
      curve := curve + [acc];
      assert xs[..i + 1] == xs[..i] + [xs[i]];
    }
    assert xs[..|xs|] == xs;
  }

  /** Every interval of every episode is held; each episode is one trade; the returns sum
      to the funding of those intervals less one entry cost an episode and one exit cost
      for each episode that ends inside the series. */
  method BacktestFundingCarry(h: seq<real>, p: CarryParams) returns (res: FundingBacktestResult)
    requires p.Valid()
    ensures var es := Episodes(h, p.Rates(), 0);
      && res.nTrades == |es| && res.intervalsInPosition == TotalLength(es) && |res.nets| == |h|
      && Counts(es, |h|, res.intervalsInPosition, res.nTrades)
      && Within(h, es)
      && Total(res.nets) == TotalAccrued(h, es) - Times(|es| as real, p.EntryCost())
                            - Times(EndedInside(h, es) as real, p.ExitCost())
      && (forall i :: 0 <= i < |h| ==> res.nets[i] == NetOn(h, p, es, i))
    ensures Compounds(res.nets, res.equityCurve)
    ensures res.totalReturn == if h == [] then 0.0 else res.equityCurve[|h| - 1] - 1.0
  {
    hide Rest, Episodes, Pass, Decided, Total, Accounted, CarryParams.EntryCost, CarryParams.ExitCost, Inside,
         Compounds, EndedInside, Counts, NetOn, TotalLength, TotalAccrued, Times, NextDone;
    var sig := new FundingCarrySignal(p, 0);
    ghost var es := Episodes(h, p.Rates(), 0);
    NothingBefore(es);
    var nets: seq<real>, inCount, trades := [], 0, 0;
    ghost var r := p.Rates();
    ghost var done: seq<Episode>, start := [], -1;
    PassStart(h, r);
    AccountedStart(h, p);
    CountsNext(es, 0, 0, 0);
    for i := 0 to |h|
      invariant fresh(sig) && sig.p == p && sig.minAge == 0
      invariant Pass(h, r, i, done, start) && InStep(sig.State(), start, i, 1)
      invariant |nets| == i && (start >= 0 <==> Inside(es, i - 1))
      invariant forall j :: 0 <= j < i ==> nets[j] == NetOn(h, p, es, j)
      invariant Accounted(h, p, i, done, start, Total(nets), inCount, trades)
      invariant Counts(es, i, inCount, trades)
    {
      PassStep(h, r, i, done, start);
      DecideStep(h, r, i, start, sig.State(), 1);
      CountsNext(es, i, inCount, trades);
      AccountedStep(h, p, i, done, start, Total(nets), inCount, trades);
      OpenMeansInside(h, r, i, NextDone(h, r, i, done, start), NextOpen(h, r, i, start));
      var action := sig.Decide(h[i]);
      var x := 0.0;
      if action == ENTER || action == HOLD {
        x := x + h[i];
        inCount := inCount + 1;
      }
      if action == ENTER {
        x := x - p.EntryCost();
        trades := trades + 1;
      } else if action == EXIT {
        x := x - p.ExitCost();
      }
      TotalAppend(nets, x);
      NetIs(h, p, es, i);
      nets := nets + [x];
      done, start := NextDone(h, r, i, done, start), NextOpen(h, r, i, start);
    }
    PassEnd(h, r, done, start);
    AccountedEnd(h, p, done, start, Total(nets), inCount, trades);
    var curve := CompoundCurve(nets);
    return FundingBacktestResult(nets, inCount, trades, if |nets| > 0 then curve[|nets| - 1] - 1.0 else 0.0, curve);
  }

  lemma NetIs(h: seq<real>, p: CarryParams, es: seq<Episode>, i: nat)
    requires i < |h|
    ensures NetOn(h, p, es, i) == if Inside(es, i) then (if Inside(es, i - 1) then h[i] else h[i] - p.EntryCost())
                                  else if Inside(es, i - 1) then -p.ExitCost() else 0.0
  {
  }

  lemma NothingBefore(es: seq<Episode>)
    ensures !Inside(es, -1)
  {
  }

  ghost predicate Begins(es: seq<Episode>, i: nat) {
    Inside(es, i) && !Inside(es, i - 1)
  }

  /** How many intervals before n lie in an episode, and at how many one begins. */
  ghost function HeldBefore(es: seq<Episode>, n: nat): nat {
    if n == 0 then 0 else HeldBefore(es, n - 1) + if Inside(es, n - 1) then 1 else 0
  }

  ghost function Begun(es: seq<Episode>, n: nat): nat {
    if n == 0 then 0 else Begun(es, n - 1) + if Begins(es, n - 1) then 1 else 0
  }

  ghost predicate Counts(es: seq<Episode>, n: nat, inCount: int, trades: int) {
    inCount == HeldBefore(es, n) && trades == Begun(es, n)
  }

  lemma CountsNext(es: seq<Episode>, n: nat, inCount: int, trades: int)
    ensures Counts(es, 0, 0, 0)
    ensures Counts(es, n, inCount, trades) ==>
              Counts(es, n + 1, inCount + (if Inside(es, n) then 1 else 0),
                     trades + if Inside(es, n) && !Inside(es, n - 1) then 1 else 0)
  {
  }

  /** Episodes over before the series is. */
  function EndedInside(h: seq<real>, es: seq<Episode>): int {
    if es == [] then 0 else EndedInside(h, es[..|es| - 1]) + if es[|es| - 1].to < |h| then 1 else 0
  }

  /** The running figures are those of the episodes done and the one that is open. */
  ghost predicate Accounted(h: seq<real>, p: CarryParams, i: nat, done: seq<Episode>, start: int,
                            total: real, inCount: int, trades: int) {
    && i <= |h| && start < i && Within(h, done) && (forall k :: 0 <= k < |done| ==> done[k].to < |h|)
    && trades == |done| + (if start >= 0 then 1 else 0)
    && inCount == TotalLength(done) + (if start >= 0 then i - start else 0)
    && EndedInside(h, done) == |done|
    && total == TotalAccrued(h, done) + (if start >= 0 then RangeSum(h, start, i) else 0.0)
                - Times(trades as real, p.EntryCost()) - Times(|done| as real, p.ExitCost())
  }

  lemma AccountedStart(h: seq<real>, p: CarryParams)
    ensures Accounted(h, p, 0, [], -1, Total([]), 0, 0)
  {
    TimesNext(0, p.EntryCost());
    TimesNext(0, p.ExitCost());
  }

  lemma LengthAppend(h: seq<real>, es: seq<Episode>, e: Episode)
    requires Within(h, es) && e.from < e.to <= |h|
    ensures TotalLength(es + [e]) == TotalLength(es) + e.Length()
    ensures Within(h, es + [e]) && TotalAccrued(h, es + [e]) == TotalAccrued(h, es) + RangeSum(h, e.from, e.to)
    ensures EndedInside(h, es + [e]) == EndedInside(h, es) + if e.to < |h| then 1 else 0
  {
    assert (es + [e])[..|es|] == es;
  }

  lemma AccountedStep(h: seq<real>, p: CarryParams, i: nat, done: seq<Episode>, start: int,
                      total: real, inCount: int, trades: int)
    requires Accounted(h, p, i, done, start, total, inCount, trades) && i < |h|
    ensures var r := p.Rates();
      var next, done' := NextOpen(h, r, i, start), NextDone(h, r, i, done, start);
      // entered, held, closed, or out
      if start < 0 && next >= 0
          then Accounted(h, p, i + 1, done', next, total + (0.0 + h[i] - p.EntryCost()), inCount + 1, trades + 1)
      else if start >= 0 && next >= 0
          then Accounted(h, p, i + 1, done', next, total + (0.0 + h[i]), inCount + 1, trades)
      else if start >= 0 then Accounted(h, p, i + 1, done', next, total + (0.0 - p.ExitCost()), inCount, trades)
      else Accounted(h, p, i + 1, done', next, total + 0.0, inCount, trades)
  {
    hide Times, TotalLength, TotalAccrued, CarryParams.EntryCost, CarryParams.ExitCost;
    TimesNext(trades, p.EntryCost());
    TimesNext(|done|, p.ExitCost());
    if start >= 0 {
      RangeSumGrows(h, start, i);
      LengthAppend(h, done, Episode(start, i));
    } else {
      RangeSumGrows(h, i, i);
    }
  }

  lemma AccountedEnd(h: seq<real>, p: CarryParams, done: seq<Episode>, start: int, total: real, inCount: int,
                     trades: int)
    requires Accounted(h, p, |h|, done, start, total, inCount, trades)
    ensures var es := if start < 0 then done else done + [Episode(start, |h|)];
      && Within(h, es) && trades == |es| && inCount == TotalLength(es)
      && total == TotalAccrued(h, es) - Times(|es| as real, p.EntryCost())
           - Times(EndedInside(h, es) as real, p.ExitCost())
  {
    if start >= 0 {
      LengthAppend(h, done, Episode(start, |h|));
    }
  }

  lemma {:induction false} DurationsSum(es: seq<Episode>)
    ensures TotalLength(es) == SumInts(Durations(es))
  {
    if es != [] {
      var front := es[..|es| - 1];
      DurationsSum(front);
      assert Durations(es)[..|es| - 1] == Durations(front);
    }
  }

  function SumInts(xs: seq<int>): int {
    if xs == [] then 0 else SumInts(xs[..|xs| - 1]) + xs[|xs| - 1]
  }

  /** The counts of the four implementations agree: positions of carry_backtest and runs
      of the age-gated signal are the gated durations of funding_persistence, and with no
      gate the funding backtest holds for the summed durations. */
  method FundingFormsAgree(h: seq<real>, p: CarryParams, minAge: int, breakeven: int, roundTrip: real)
      returns (stats: PersistenceStats, carry: CarryBtResult, runs: seq<int>, bt: FundingBacktestResult)
    requires p.Valid()
    ensures carry.holds == runs == Gated(stats.durations, Gate(minAge))
    ensures bt.nTrades == stats.nEpisodes && bt.intervalsInPosition == SumInts(stats.durations)
  {
    var res := FundingPersistence(h, p.Rates(), breakeven);
    stats := res.value;
    carry := BacktestCarry(h, p.Rates(), roundTrip, minAge);
    runs := SignalRuns(h, p, minAge);
    bt := BacktestFundingCarry(h, p);
    HoldsAreGatedDurations(Episodes(h, p.Rates(), 0), Gate(minAge));
    DurationsSum(Episodes(h, p.Rates(), 0));
  }
}
