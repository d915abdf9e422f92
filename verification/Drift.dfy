/** treasuryforge/risk/drift.py: the Page-Hinkley change detector, which keeps five
    numbers, against what it stands for on the whole history; and the kill switch. */
module Drift {
  import opened Sums
  import opened Wrappers

  datatype Direction = Decrease | Increase

  datatype Config = Config(delta: real, lam: real, direction: Direction)

  // ---- the definition, on the whole history ------------------------------------------

  function Average(xs: seq<real>): real
    requires xs != []
  {
    Total(xs) / |xs| as real
  }

  /** How far input i lies on the alarming side of the mean of the inputs up to it, beyond
      the slack. */
  function Deviation(xs: seq<real>, c: Config, i: nat): real
    requires i < |xs|
  {
    var mean := Average(xs[..i + 1]);
    (if c.direction == Decrease then mean - xs[i] else xs[i] - mean) - c.delta
  }

  /** The deviations of inputs j .. n-1. */
  function SuffixSum(xs: seq<real>, c: Config, j: nat, n: nat): real
    requires j <= n <= |xs|
    decreases n - j
  {
    if j == n then 0.0 else SuffixSum(xs, c, j, n - 1) + Deviation(xs, c, n - 1)
  }

  /** The largest over all suffixes, the empty one included. */
  ghost predicate IsLargestSuffix(xs: seq<real>, c: Config, ph: real) {
    && (forall j :: 0 <= j <= |xs| ==> SuffixSum(xs, c, j, |xs|) <= ph)
    && (exists j :: 0 <= j <= |xs| && SuffixSum(xs, c, j, |xs|) == ph)
  }

  // ---- the detector ---------------------------------------------------------------------

  datatype Detector = Detector(n: nat, mean: real, m: real, extreme: real, alarm: bool)

  const FRESH := Detector(0, 0.0, 0.0, 0.0, false)

  function Updated(d: Detector, c: Config, x: real): (Detector, real) {
    var n := d.n + 1;
    var mean := d.mean + (x - d.mean) / n as real;
    var m := d.m + (x - mean + if c.direction == Decrease then c.delta else -c.delta);
    var extreme := if c.direction == Decrease then Max(d.extreme, m) else Min(d.extreme, m);
    var ph := if c.direction == Decrease then extreme - m else m - extreme;
    (Detector(n, mean, m, extreme, d.alarm || ph > c.lam), ph)
  }

  class PageHinkley {
    const config: Config
    var n: nat
    var mean: real
    var m: real
    var extreme: real
    var alarm: bool

    constructor (config: Config)
      ensures this.config == config && State() == FRESH
    {
      this.config := config;
      n, mean, m, extreme, alarm := 0, 0.0, 0.0, 0.0, false;
    }

    function State(): Detector
      reads this
    {
      Detector(n, mean, m, extreme, alarm)
    }

    method Update(x: real) returns (ph: real)
      modifies this
      ensures (State(), ph) == Updated(old(State()), config, x)
    {
      n := n + 1;
      mean := mean + (x - mean) / n as real;
      if config.direction == Decrease {
        m := m + (x - mean + config.delta);
        extreme := Max(extreme, m);
        ph := extreme - m;
      } else {
        m := m + (x - mean + -config.delta);
        extreme := Min(extreme, m);
        ph := m - extreme;
      }
      if ph > config.lam {
        alarm := true;
      }
    }

    method Reset()
      modifies this
      ensures State() == FRESH
    {
      n, mean, m, extreme, alarm := 0, 0.0, 0.0, 0.0, false;
    }
  }

  /** The detector after a history, and the last value it answered (0 before any). */
  function After(xs: seq<real>, c: Config): (Detector, real) {
    if xs == [] then (FRESH, 0.0) else Updated(After(xs[..|xs| - 1], c).0, c, xs[|xs| - 1])
  }

  lemma RunningMean(mean: real, n: int, total: real, x: real)
    requires n >= 0 && (n > 0 ==> mean == total / n as real) && (n == 0 ==> total == 0.0)
    ensures mean + (x - mean) / (n + 1) as real == (total + x) / (n + 1) as real
  {
    var k, k1 := n as real, (n + 1) as real;
    if n > 0 {
      assert mean * k == total;
    }
    var q := (x - mean) / k1;
    assert q * k1 == x - mean;
    assert (mean + q) * k1 == mean * k1 + q * k1;
    assert k1 == k + 1.0;
    assert mean * k1 == mean * k + mean;
    if n == 0 {
      assert k1 == 1.0;
    } else {
      assert (mean + q) * k1 == total + x;
    }
    QuotientIs(mean + q, k1, total + x);
  }

  lemma QuotientIs(q: real, d: real, n: real)
    requires d != 0.0 && q * d == n
    ensures n / d == q
  {
    CancelFactor(d, q);
  }

  /** The running mean is the average of the inputs, and the count is their number. */
  lemma {:induction false} MeanIsAverage(xs: seq<real>, c: Config)
    ensures After(xs, c).0.n == |xs|
    ensures xs != [] ==> After(xs, c).0.mean == Average(xs)
  {
    if xs != [] {
      var front, x := xs[..|xs| - 1], xs[|xs| - 1];
      MeanIsAverage(front, c);
      RunningMean(After(front, c).0.mean, |front|, Total(front), x);
    }
  }

  lemma DeviationOfPrefix(xs: seq<real>, c: Config, k: nat, i: nat)
    requires i < k <= |xs|
    ensures Deviation(xs[..k], c, i) == Deviation(xs, c, i)
  {
    assert xs[..k][..i + 1] == xs[..i + 1];
  }

  lemma {:induction false} SuffixOfPrefix(xs: seq<real>, c: Config, k: nat, j: nat, n: nat)
    requires j <= n <= k <= |xs|
    ensures SuffixSum(xs[..k], c, j, n) == SuffixSum(xs, c, j, n)
    decreases n - j
  {
    if j < n {
      SuffixOfPrefix(xs, c, k, j, n - 1);
      DeviationOfPrefix(xs, c, k, n - 1);
    }
  }

  /** Signed so that it grows with the alarming deviations. */
  function Gap(d: Detector, c: Config): real {
    if c.direction == Decrease then d.extreme - d.m else d.m - d.extreme
  }

  /** One update moves the value by the new deviation, but not below zero. */
  lemma GapStep(xs: seq<real>, c: Config)
    requires xs != []
    ensures var front := xs[..|xs| - 1];
      After(xs, c).1 == Max(Gap(After(front, c).0, c) + Deviation(xs, c, |xs| - 1), 0.0)
    ensures After(xs, c).1 == Gap(After(xs, c).0, c)
  {
    MeanIsAverage(xs, c);
    assert xs[..|xs|] == xs;
  }

  /** The answer after any history is the largest suffix sum. */
  lemma {:induction false} ValueIsLargestSuffix(xs: seq<real>, c: Config)
    ensures IsLargestSuffix(xs, c, After(xs, c).1)
    ensures After(xs, c).1 == Gap(After(xs, c).0, c)
  {
    if xs == [] {
      assert SuffixSum(xs, c, 0, 0) == 0.0;
    } else {
      var n, front := |xs|, xs[..|xs| - 1];
      var ph, before := After(xs, c).1, After(front, c).1;
      ValueIsLargestSuffix(front, c);
      GapStep(xs, c);
      var d := Deviation(xs, c, n - 1);
      forall j | 0 <= j <= n ensures SuffixSum(xs, c, j, n) <= ph {
        if j < n {
          SuffixOfPrefix(xs, c, n - 1, j, n - 1);
          assert SuffixSum(front, c, j, n - 1) <= before;
        }
      }
      if before + d > 0.0 {
        var j :| 0 <= j <= n - 1 && SuffixSum(front, c, j, n - 1) == before;
        SuffixOfPrefix(xs, c, n - 1, j, n - 1);
        assert SuffixSum(xs, c, j, n) == ph;
      } else {
        assert SuffixSum(xs, c, n, n) == ph;
      }
    }
  }

  /** Some prefix of the history reached a value above lambda. */
  ghost predicate Exceeded(xs: seq<real>, c: Config) {
    exists k :: 0 < k <= |xs| && After(xs[..k], c).1 > c.lam
  }

  lemma {:induction false} AlarmIffExceeded(xs: seq<real>, c: Config)
    ensures After(xs, c).0.alarm <==> Exceeded(xs, c)
  {
    if xs != [] {
      var n, front := |xs|, xs[..|xs| - 1];
      AlarmIffExceeded(front, c);
      assert xs[..n] == xs;
      if Exceeded(front, c) {
        var k :| 0 < k <= |front| && After(front[..k], c).1 > c.lam;
        assert front[..k] == xs[..k];
      }
      if Exceeded(xs, c) && !(After(xs, c).1 > c.lam) {
        var k :| 0 < k <= n && After(xs[..k], c).1 > c.lam;
        assert front[..k] == xs[..k];
      }
    }
  }

  function Negated(xs: seq<real>): seq<real> {
    if xs == [] then [] else Negated(xs[..|xs| - 1]) + [-xs[|xs| - 1]]
  }

  /** A rise detector on x is the mirror image of a drop detector on -x. */
  lemma {:induction false} Mirrored(xs: seq<real>, c: Config)
    requires c.direction == Increase
    ensures var up, down := After(xs, c), After(Negated(xs), c.(direction := Decrease));
      && up.1 == down.1 && up.0.alarm == down.0.alarm && up.0.n == down.0.n
      && up.0.mean == -down.0.mean && up.0.m == -down.0.m && up.0.extreme == -down.0.extreme
  {
    if xs != [] {
      var front := xs[..|xs| - 1];
      Mirrored(front, c);
      assert Negated(xs)[..|Negated(xs)| - 1] == Negated(front);
      var d, x, k := After(front, c).0, xs[|xs| - 1], (|xs|) as real;
      OppositeQuotient(x - d.mean, (d.n + 1) as real);
      assert -x - -d.mean == -(x - d.mean);
    }
  }

  lemma OppositeQuotient(a: real, k: real)
    requires k != 0.0
    ensures (-a) / k == -(a / k)
  {
    var q := a / k;
    assert q * k == a;
    assert (-q) * k == -(q * k);
    QuotientIs(-q, k, -a);
  }

  // ---- the kill switch ---------------------------------------------------------------------

  datatype Reason = DdExceedsStressBand | EdgeDriftDetected | ExecutionDegraded

  datatype Reading = Reading(ret: Option<real>, slippage: Option<real>, drawdown: Option<real>)

  class DriftKillSwitch {
    const expectancy: PageHinkley
    const slippage: PageHinkley
    const stressDdBand: real
    var killed: bool
    var reason: Option<Reason>

    constructor (expectancy: PageHinkley, slippage: PageHinkley, band: real)
      requires expectancy != slippage && expectancy.State() == FRESH && slippage.State() == FRESH
      ensures this.expectancy == expectancy && this.slippage == slippage && stressDdBand == band
      ensures Follows([])
    {
      this.expectancy, this.slippage, stressDdBand := expectancy, slippage, band;
      killed, reason := false, None;
    }

    /** The switch is where the history leaves it. */
    ghost predicate Follows(h: seq<Reading>)
      reads this, expectancy, slippage
    {
      && expectancy != slippage
      && (killed <==> reason.Some?)
      && reason == FirstKill(h, expectancy.config, slippage.config, stressDdBand)
      && (!killed ==> expectancy.State() == After(Returns(h), expectancy.config).0
                      && slippage.State() == After(Slippages(h), slippage.config).0
                      && !expectancy.alarm && !slippage.alarm)
    }

    method Observe(r: Reading, ghost h: seq<Reading>) returns (verdict: Option<Reason>)
      requires Follows(h)
      modifies this, expectancy, slippage
      ensures Follows(h + [r]) && verdict == reason
      // each detector takes its reading, on the one that kills too, and none after that
      ensures expectancy.State() == if !old(killed) && r.ret.Some?
                                    then Updated(old(expectancy.State()), expectancy.config, r.ret.value).0
                                    else old(expectancy.State())
      ensures slippage.State() == if !old(killed) && r.slippage.Some?
                                  then Updated(old(slippage.State()), slippage.config, r.slippage.value).0
                                  else old(slippage.State())
    {
      hide After, Updated;
      ReadingsAppend(h, r);
      AfterOptional(Returns(h), r.ret, expectancy.config);
      AfterOptional(Slippages(h), r.slippage, slippage.config);
      if killed {
        return reason;
      }
      if r.drawdown.Some? && r.drawdown.value > stressDdBand {
        Kill(DdExceedsStressBand);
      }
      if r.ret.Some? {
        var ph := expectancy.Update(r.ret.value);
        if expectancy.alarm {
          Kill(EdgeDriftDetected);
        }
      }
      if r.slippage.Some? {
        var ph := slippage.Update(r.slippage.value);
        if slippage.alarm {
          Kill(ExecutionDegraded);
        }
      }
      return reason;
    }

    method Kill(why: Reason)
      modifies this`killed, this`reason
      ensures killed && reason == if old(killed) then old(reason) else Some(why)
    {
      if !killed {
        killed, reason := true, Some(why);
      }
    }
  }

  /** The returns, and the slippages, reported in a history. */
  function Returns(h: seq<Reading>): seq<real> {
    if h == [] then []
    else Returns(h[..|h| - 1]) + if h[|h| - 1].ret.Some? then [h[|h| - 1].ret.value] else []
  }

  function Slippages(h: seq<Reading>): seq<real> {
    if h == [] then []
    else Slippages(h[..|h| - 1]) + if h[|h| - 1].slippage.Some? then [h[|h| - 1].slippage.value] else []
  }

  /** The guard the last reading of h trips, in the order the guards are checked, judged
      on the readings themselves. */
  function Trips(h: seq<Reading>, e: Config, s: Config, band: real): Option<Reason>
    requires h != []
  {
    var r := h[|h| - 1];
    if r.drawdown.Some? && r.drawdown.value > band then Some(DdExceedsStressBand)
    else if r.ret.Some? && After(Returns(h), e).1 > e.lam then Some(EdgeDriftDetected)
    else if r.slippage.Some? && After(Slippages(h), s).1 > s.lam then Some(ExecutionDegraded)
    else None
  }

  /** The first guard ever tripped. */
  function FirstKill(h: seq<Reading>, e: Config, s: Config, band: real): Option<Reason> {
    if h == [] then None
    else
      var before := FirstKill(h[..|h| - 1], e, s, band);
      if before.Some? then before else Trips(h, e, s, band)
  }

  /** xs, and the new value when there is one. */
  function With(xs: seq<real>, x: Option<real>): seq<real> {
    match x
    case None => xs
    case Some(v) => xs + [v]
  }

  lemma ReadingsAppend(h: seq<Reading>, r: Reading)
    ensures (h + [r])[..|h + [r]| - 1] == h && (h + [r])[|h + [r]| - 1] == r
    ensures Returns(h + [r]) == With(Returns(h), r.ret)
    ensures Slippages(h + [r]) == With(Slippages(h), r.slippage)
  {
    assert (h + [r])[..|h|] == h;
    assert Returns(h) + [] == Returns(h) && Slippages(h) + [] == Slippages(h);
  }

  lemma AfterOptional(xs: seq<real>, x: Option<real>, c: Config)
    ensures x.Some? ==> After(With(xs, x), c) == Updated(After(xs, c).0, c, x.value)
    ensures x.Some? ==>
              (After(With(xs, x), c).0.alarm <==> After(xs, c).0.alarm || After(With(xs, x), c).1 > c.lam)
  {
    if x.Some? {
      assert (xs + [x.value])[..|xs|] == xs;
    }
  }

  /** Killed means killed: whatever is reported later, the reason stays the first one. */
  lemma {:induction false} KillIsFinal(h: seq<Reading>, k: nat, e: Config, s: Config, band: real)
    requires k <= |h| && FirstKill(h[..k], e, s, band).Some?
    ensures FirstKill(h, e, s, band) == FirstKill(h[..k], e, s, band)
    decreases |h|
  {
    if k == |h| {
      assert h[..k] == h;
    } else {
      var front := h[..|h| - 1];
      assert front[..k] == h[..k];
      KillIsFinal(front, k, e, s, band);
    }
  }

  // ---- what the switch answers, on the readings alone -----------------------------------------

  /** Some suffix of the inputs lies more than lambda, beyond the slack, on the alarming side of
      the running mean. */
  ghost predicate Drifted(xs: seq<real>, c: Config) {
    exists j :: 0 <= j <= |xs| && SuffixSum(xs, c, j, |xs|) > c.lam
  }

  lemma DriftedIff(xs: seq<real>, c: Config)
    ensures Drifted(xs, c) <==> After(xs, c).1 > c.lam
  {
    hide After;
    ValueIsLargestSuffix(xs, c);
  }

  /** Reading k of the history calls for a kill, for that reason. */
  ghost predicate CallsFor(h: seq<Reading>, k: nat, e: Config, s: Config, band: real, why: Reason)
    requires k < |h|
  {
    match why
    case DdExceedsStressBand => h[k].drawdown.Some? && h[k].drawdown.value > band
    case EdgeDriftDetected => h[k].ret.Some? && Drifted(Returns(h[..k + 1]), e)
    case ExecutionDegraded => h[k].slippage.Some? && Drifted(Slippages(h[..k + 1]), s)
  }

  ghost predicate AllQuiet(h: seq<Reading>, k: nat, e: Config, s: Config, band: real)
    requires k <= |h|
  {
    forall i, why :: 0 <= i < k ==> !CallsFor(h, i, e, s, band, why)
  }

  /** The first reading of the history that calls for a kill, and the reason given for it: the
      drawdown before the returns before the slippage. */
  ghost predicate KilledAt(h: seq<Reading>, k: nat, e: Config, s: Config, band: real, why: Reason) {
    && k < |h| && AllQuiet(h, k, e, s, band) && CallsFor(h, k, e, s, band, why)
    && (why != DdExceedsStressBand ==> !CallsFor(h, k, e, s, band, DdExceedsStressBand))
    && (why == ExecutionDegraded ==> !CallsFor(h, k, e, s, band, EdgeDriftDetected))
  }

  lemma {:induction false} QuietIff(h: seq<Reading>, e: Config, s: Config, band: real)
    ensures FirstKill(h, e, s, band).None? <==> AllQuiet(h, |h|, e, s, band)
  {
    hide After, Drifted;
    if h != [] {
      var n, front := |h|, h[..|h| - 1];
      QuietIff(front, e, s, band);
      SamePrefixes(h, e, s, band);
      TripsAre(h, e, s, band);
    }
  }

  lemma SamePrefixes(h: seq<Reading>, e: Config, s: Config, band: real)
    requires h != []
    ensures var front := h[..|h| - 1];
      forall i, why :: 0 <= i < |front| ==> (CallsFor(front, i, e, s, band, why) <==> CallsFor(h, i, e, s, band, why))
  {
    hide Drifted, Returns, Slippages;
    var front := h[..|h| - 1];
    forall i, why | 0 <= i < |front|
      ensures CallsFor(front, i, e, s, band, why) <==> CallsFor(h, i, e, s, band, why)
    {
      assert front[..i + 1] == h[..i + 1];
    }
  }

  lemma TripsAre(h: seq<Reading>, e: Config, s: Config, band: real)
    requires h != []
    ensures var k := |h| - 1;
      match Trips(h, e, s, band)
      case None => forall why :: !CallsFor(h, k, e, s, band, why)
      case Some(why) =>
        && CallsFor(h, k, e, s, band, why)
        && (why != DdExceedsStressBand ==> !CallsFor(h, k, e, s, band, DdExceedsStressBand))
        && (why == ExecutionDegraded ==> !CallsFor(h, k, e, s, band, EdgeDriftDetected))
  {
    hide After, Drifted, Returns, Slippages;
    assert h[..|h|] == h;
    DriftedIff(Returns(h), e);
    DriftedIff(Slippages(h), s);
  }

  /** The reason reported after any history is that of the first reading which calls for a kill;
      there is none exactly when no reading does. */
  lemma {:induction false} KilledIff(h: seq<Reading>, e: Config, s: Config, band: real, why: Reason)
    ensures FirstKill(h, e, s, band) == Some(why) <==> exists k: nat :: KilledAt(h, k, e, s, band, why)
    ensures FirstKill(h, e, s, band).None? <==> AllQuiet(h, |h|, e, s, band)
  {
    hide After, Drifted, CallsFor, Trips;
    QuietIff(h, e, s, band);
    if h != [] {
      var n, front := |h|, h[..|h| - 1];
      KilledIff(front, e, s, band, why);
      SamePrefixes(h, e, s, band);
      TripsAre(h, e, s, band);
      if k: nat :| KilledAt(front, k, e, s, band, why) {
        assert KilledAt(h, k, e, s, band, why);
      }
      if FirstKill(front, e, s, band).None? && Trips(h, e, s, band) == Some(why) {
        assert KilledAt(h, n - 1, e, s, band, why);
      }
      if k: nat :| KilledAt(h, k, e, s, band, why) {
        if k < n - 1 {
          assert KilledAt(front, k, e, s, band, why);
        }
      }
    }
  }
}
