/** What the guards guarantee over whole runs: sliding windows over every fill, the latched
    breaker, and the checkpoints that carry both over a crash. */
module RunnerWindows {
  import opened Sums
  import opened Wrappers
  import opened Trading
  import opened Policy
  import opened Runner

  // ---- the unpruned history -------------------------------------------------------------------

  /** The deals filled after lo. */
  function Since(deals: seq<Deal>, lo: int): seq<Deal> {
    if deals == [] then []
    else
      var d := deals[|deals| - 1];
      Since(deals[..|deals| - 1], lo) + if d.fill.ts > lo then [d] else []
  }

  /** The deals filled in the window (lo, hi]. */
  function Within(deals: seq<Deal>, lo: int, hi: int): seq<Deal> {
    if deals == [] then []
    else
      var d := deals[|deals| - 1];
      Within(deals[..|deals| - 1], lo, hi) + if lo < d.fill.ts <= hi then [d] else []
  }

  /** Quote registered for these deals: amount times fill price. */
  function Registers(deals: seq<Deal>): real {
    if deals == [] then 0.0 else Registers(deals[..|deals| - 1]) + deals[|deals| - 1].fill.Gross()
  }

  function Entries<T>(deals: seq<Deal>, of: Deal -> T): seq<T> {
    if deals == [] then [] else Entries(deals[..|deals| - 1], of) + [of(deals[|deals| - 1])]
  }

  function FillTime(d: Deal): int {
    d.fill.ts
  }

  function FillSpent(d: Deal): Spent {
    Spent(d.fill.ts, d.fill.Gross())
  }

  /** The engine as if nothing had ever been dropped from its deques. */
  function Unpruned(e: Engine, deals: seq<Deal>): Engine {
    e.(recent := Entries(deals, FillTime), spend := Entries(deals, FillSpent))
  }

  ghost predicate Increasing(deals: seq<Deal>) {
    deals != [] ==>
      && Increasing(deals[..|deals| - 1])
      && (|deals| > 1 ==> deals[|deals| - 2].fill.ts < deals[|deals| - 1].fill.ts)
  }

  lemma {:induction false} NoneSince(deals: seq<Deal>, lo: int)
    requires Increasing(deals) && (deals != [] ==> deals[|deals| - 1].fill.ts <= lo)
    ensures Since(deals, lo) == []
    ensures forall hi :: Within(deals, lo, hi) == []
  {
    if deals != [] {
      NoneSince(deals[..|deals| - 1], lo);
    }
  }

  /** On fills in time order, dropping old ones from the front is the same as filtering. */
  lemma {:induction false} PrunedIsSince<T>(deals: seq<Deal>, of: Deal -> T, at: T -> int, lo: int)
    requires Increasing(deals) && forall d :: at(of(d)) == d.fill.ts
    ensures Pruned(Entries(deals, of), at, lo) == Entries(Since(deals, lo), of)
  {
    if deals != [] {
      var init, d := deals[..|deals| - 1], deals[|deals| - 1];
      PrunedIsSince(init, of, at, lo);
      PrunedAppend(Entries(init, of), at, lo, of(d));
      if d.fill.ts > lo {
        assert (Since(init, lo) + [d])[..|Since(init, lo)|] == Since(init, lo);
        assert at(of(d)) == d.fill.ts;
        EntriesLength(Since(init, lo), of);
      } else {
        NoneSince(init, lo);
        assert at(of(d)) == d.fill.ts;
      }
    }
  }

  lemma {:induction false} EntriesLength<T>(deals: seq<Deal>, of: Deal -> T)
    ensures |Entries(deals, of)| == |deals|
  {
    if deals != [] {
      EntriesLength(deals[..|deals| - 1], of);
    }
  }

  lemma {:induction false} SumSpentAppend(sp: seq<Spent>, x: Spent)
    ensures SumSpent(sp + [x]) == SumSpent(sp) + x.notional
  {
    if sp == [] {
      assert [] + [x] == [x];
    } else {
      assert (sp + [x])[1..] == sp[1..] + [x];
      SumSpentAppend(sp[1..], x);
    }
  }

  lemma {:induction false} SumSpentRegisters(deals: seq<Deal>)
    ensures SumSpent(Entries(deals, FillSpent)) == Registers(deals)
  {
    if deals != [] {
      SumSpentRegisters(deals[..|deals| - 1]);
      SumSpentAppend(Entries(deals[..|deals| - 1], FillSpent), FillSpent(deals[|deals| - 1]));
    }
  }

  // ---- what holds at the end of every tick ------------------------------------------------------

  /** The windows had room for a decision, counting every fill before it. */
  ghost predicate Cleared(deals: seq<Deal>, d: Decision, cfg: Config) {
    && |Since(deals, d.tick.ts - cfg.windowSteps)| < cfg.maxTxPerWindow
    && (cfg.maxNotionalPerWindow.Some? ==>
          Registers(Since(deals, d.tick.ts - cfg.SpendWindow())) + d.intent.Notional(d.tick.price)
          <= cfg.maxNotionalPerWindow.value + TINY)
  }

  ghost predicate AllCleared(deals: seq<Deal>, cfg: Config) {
    deals != [] ==>
      var init, d := deals[..|deals| - 1], deals[|deals| - 1];
      AllCleared(init, cfg) && Cleared(init, d.decision, cfg) && d.decision.tick.ts <= d.fill.ts
  }

  ghost predicate Sound(r: Setup, s: State, now: int) {
    && Alike(s.engine, Unpruned(s.engine, s.deals), r.cfg, now)
    && Increasing(s.deals) && (s.deals != [] ==> s.deals[|s.deals| - 1].fill.ts <= now)
    && AllCleared(s.deals, r.cfg)
    && (s.pending.Some? ==>
          s.pending.value.tick.ts <= now && Cleared(s.deals, s.pending.value, r.cfg))
  }

  lemma SettlingIsSound(r: Setup, s: State, d: Decision, t: Tick, now: int)
    requires Alike(s.engine, Unpruned(s.engine, s.deals), r.cfg, now) && now <= t.ts
    requires Increasing(s.deals) && (s.deals != [] ==> s.deals[|s.deals| - 1].fill.ts < t.ts)
    requires AllCleared(s.deals, r.cfg) && Cleared(s.deals, d, r.cfg) && d.tick.ts <= t.ts && s.pending.None?
    ensures Sound(r, Settled(r, s, d, t), t.ts) && Settled(r, s, d, t).pending.None?
  {
    hide Alike, Applied, Cleared, SnapshotOf, Entries;
    var f := FillFor(r.executor, r.round6, d.intent, t);
    assert f.ts == t.ts;
    AlikeLater(s.engine, Unpruned(s.engine, s.deals), r.cfg, now, t.ts);
    if Applied(s.wallet, f).Some? {
      var deals := s.deals + [Deal(d, f)];
      assert deals[..|s.deals|] == s.deals;
      AlikeRegisters(s.engine, Unpruned(s.engine, s.deals), r.cfg, t.ts, t.ts, f.Gross());
      UnprunedNext(s.engine, s.deals, Deal(d, f));
    }
  }

  lemma UnprunedNext(e: Engine, deals: seq<Deal>, d: Deal)
    ensures Unpruned(Registered(e, d.fill.ts, d.fill.Gross()), deals + [d])
         == Registered(Unpruned(e, deals), d.fill.ts, d.fill.Gross())
  {
    assert (deals + [d])[..|deals|] == deals;
  }

  /** An ALLOW from the pruned engine clears the decision against every fill there was. */
  lemma AllowClears(r: Setup, s: State, i: Intent, t: Tick, now: int)
    requires Alike(s.engine, Unpruned(s.engine, s.deals), r.cfg, now) && now <= t.ts && Increasing(s.deals)
    requires Evaluated(s.engine, r.cfg, i, t, s.wallet, None).1 == ALLOW
    ensures Cleared(s.deals, Decision(i, t), r.cfg)
  {
    hide Evaluated, Pruned, Since, Entries, Registers, SumSpent, Intent.Notional, Increasing, Floor, Wallet.EquityAt,
         Wallet.Base, Times;
    var cfg, lo, spendLo := r.cfg, t.ts - r.cfg.windowSteps, t.ts - r.cfg.SpendWindow();
    AllowedIff(s.engine, cfg, i, t, s.wallet, None);
    AskedIsNotional(i, t);
    assert PrunedTs(s.engine.recent, lo) == PrunedTs(Entries(s.deals, FillTime), lo);
    assert PrunedSpend(s.engine.spend, spendLo) == PrunedSpend(Entries(s.deals, FillSpent), spendLo);
    PrunedIsSince(s.deals, FillTime, Itself, lo);
    PrunedIsSince(s.deals, FillSpent, TimeOf, spendLo);
    EntriesLength(Since(s.deals, lo), FillTime);
    SumSpentRegisters(Since(s.deals, spendLo));
  }

  lemma RulingIsSound(r: Setup, s: State, i: Intent, t: Tick, now: int)
    requires Alike(s.engine, Unpruned(s.engine, s.deals), r.cfg, now) && now <= t.ts
    ensures var e := Ruled(r, s, t, i).0.engine; Alike(e, Unpruned(e, s.deals), r.cfg, t.ts)
  {
    hide Times, EarlyDenial, Solvency, SumSpent, PrunedTs, PrunedSpend, Intent.Notional, Alike, Entries, Evaluated;
    AlikeRules(s.engine, Unpruned(s.engine, s.deals), r.cfg, now, i, t, s.wallet, None);
    var e := Ruled(r, s, t, i).0.engine;
    UnprunedRuling(s.engine, s.deals, r.cfg, i, t, s.wallet);
    AlikeTwice(e, Evaluated(Unpruned(s.engine, s.deals), r.cfg, i, t, s.wallet, None).0, Unpruned(e, s.deals), r.cfg,
               t.ts);
  }

  /** Ruling on the unpruned engine prunes it, which nothing later can see. */
  lemma UnprunedRuling(e0: Engine, deals: seq<Deal>, cfg: Config, i: Intent, t: Tick, w: Wallet)
    ensures var e := Evaluated(e0, cfg, i, t, w, None).0;
      Evaluated(Unpruned(e0, deals), cfg, i, t, w, None).0.tripped == e.tripped
      ==> Alike(Evaluated(Unpruned(e0, deals), cfg, i, t, w, None).0, Unpruned(e, deals), cfg, t.ts)
  {
    hide Alike, PrunedTs, PrunedSpend, SumSpent, Times, Intent.Notional, EarlyDenial, Solvency, Entries;
    PruningIsInvisible(Anchored(Unpruned(e0, deals), t, w), cfg, i, t, w, None);
    AnchoredFirst(Unpruned(e0, deals), cfg, i, t, w, None);
  }

  lemma AlikeTwice(a: Engine, b: Engine, c: Engine, cfg: Config, now: int)
    requires Alike(a, b, cfg, now) && (b.tripped == a.tripped ==> Alike(b, c, cfg, now))
    ensures Alike(a, c, cfg, now)
  {
  }

  lemma OpeningIsSound(r: Setup, s: State, t: Tick, now: int)
    requires Sound(r, s, now) && now < t.ts
    ensures Sound(r, Opened(r, s, t), t.ts) && Opened(r, s, t).pending.None?
    ensures s.pending.None? ==> Opened(r, s, t) == s
  {
    hide Alike, Cleared, Settled, AllCleared, Increasing;
    if s.pending.Some? {
      SettlingIsSound(r, s.(pending := None), s.pending.value, t, now);
    } else {
      AlikeLater(s.engine, Unpruned(s.engine, s.deals), r.cfg, now, t.ts);
    }
  }

  lemma DecidingIsSound(r: Setup, s: State, m: Moment)
    requires Sound(r, s, m.tick.ts) && s.pending.None?
    requires r.delay <= 0 ==> s.deals != [] ==> s.deals[|s.deals| - 1].fill.ts < m.tick.ts
    ensures Sound(r, Decided(r, s, m), m.tick.ts)
    ensures r.delay <= 0 ==> Decided(r, s, m).pending.None?
  {
    hide Alike, Cleared, Settled, Evaluated, AllCleared, Increasing, SnapshotOf;
    if m.proposal.Some? {
      var i, t := m.proposal.value, m.tick;
      var ruled := Ruled(r, s, t, i).0;
      RulingIsSound(r, s, i, t, t.ts);
      if Ruled(r, s, t, i).1 == ALLOW {
        AllowClears(r, s, i, t, t.ts);
        if r.delay <= 0 {
          SettlingIsSound(r, ruled, Decision(i, t), t, t.ts);
        }
      }
    }
  }

  // ---- runs ----------------------------------------------------------------------------------------

  function Now(ms: seq<Moment>, start: int): int {
    if ms == [] then start else ms[|ms| - 1].tick.ts
  }

  /** Ticks come in time order, all after start. */
  ghost predicate Timed(ms: seq<Moment>, start: int) {
    ms != [] ==> Timed(ms[..|ms| - 1], start) && Now(ms[..|ms| - 1], start) < Now(ms, start)
  }

  /** A run of a fresh engine over some wallet. */
  ghost function Outcome(r: Setup, w: Wallet, ms: seq<Moment>): State {
    Ran(r, Fresh(NEW_ENGINE, w), ms)
  }

  lemma {:induction false} RunIsSound(r: Setup, w: Wallet, ms: seq<Moment>, start: int)
    requires Timed(ms, start)
    ensures Sound(r, Outcome(r, w, ms), Now(ms, start))
    ensures r.delay <= 0 ==> Outcome(r, w, ms).pending.None?
  {
    hide Sound, Opened, Decided;
    if ms == [] {
      FreshIsSound(r, w, start);
    } else {
      var init, m := ms[..|ms| - 1], ms[|ms| - 1];
      RunIsSound(r, w, init, start);
      var s := Outcome(r, w, init);
      OpeningIsSound(r, s, m.tick, Now(init, start));
      OpenedIs(r, s, m.tick);
      if r.delay <= 0 {
        DealsAreOver(r, s, Now(init, start));
      }
      DecidingIsSound(r, Opened(r, s, m.tick), m);
    }
  }

  lemma FreshIsSound(r: Setup, w: Wallet, start: int)
    ensures Sound(r, Fresh(NEW_ENGINE, w), start)
  {
  }

  lemma DealsAreOver(r: Setup, s: State, now: int)
    requires Sound(r, s, now)
    ensures s.deals != [] ==> s.deals[|s.deals| - 1].fill.ts <= now
  {
  }

  /** The pruned deques answer like the full history of fills: on every later call sequence
      the engine rules as one that never dropped anything. */
  lemma PrunedAnswersLikeTheHistory(r: Setup, w: Wallet, ms: seq<Moment>, start: int,
                                    calls: seq<Call>, i: Intent, t: Tick, v: Wallet, age: Option<int>)
    requires Timed(ms, start) && InTimeOrder(calls, Now(ms, start)) && t.ts >= TimeAfter(calls, Now(ms, start))
    ensures var s := Outcome(r, w, ms);
      Evaluated(AfterCalls(s.engine, r.cfg, calls), r.cfg, i, t, v, age).1
      == Evaluated(AfterCalls(Unpruned(s.engine, s.deals), r.cfg, calls), r.cfg, i, t, v, age).1
  {
    hide Alike, Evaluated, AfterCalls, Ran, Increasing, AllCleared, Cleared, Entries;
    RunIsSound(r, w, ms, start);
    var s := Outcome(r, w, ms);
    AlikeForever(s.engine, Unpruned(s.engine, s.deals), r.cfg, Now(ms, start), calls, i, t, v, age);
  }

  // ---- the window theorems -----------------------------------------------------------------------

  lemma {:induction false} WithinSince(deals: seq<Deal>, lo: int, hi: int, earlier: int)
    requires earlier <= lo
    ensures |Within(deals, lo, hi)| <= |Since(deals, earlier)|
  {
    if deals != [] {
      WithinSince(deals[..|deals| - 1], lo, hi, earlier);
    }
  }

  lemma {:induction false} WindowCount(deals: seq<Deal>, cfg: Config, hi: int)
    requires Increasing(deals) && AllCleared(deals, cfg)
    ensures deals != [] ==> cfg.maxTxPerWindow > 0
    ensures |Within(deals, hi - cfg.windowSteps, hi)| <= if cfg.maxTxPerWindow > 0 then cfg.maxTxPerWindow else 0
  {
    if deals != [] {
      var init, d := deals[..|deals| - 1], deals[|deals| - 1];
      WindowCount(init, cfg, hi);
      if d.fill.ts <= hi {
        WithinSince(init, hi - cfg.windowSteps, hi, d.decision.tick.ts - cfg.windowSteps);
      }
    }
  }

  /** Never more than max_tx_per_window fills in any window of window_steps ticks. */
  lemma RateLimitHolds(r: Setup, w: Wallet, ms: seq<Moment>, start: int, hi: int)
    requires Timed(ms, start)
    ensures |Within(Outcome(r, w, ms).deals, hi - r.cfg.windowSteps, hi)|
         <= if r.cfg.maxTxPerWindow > 0 then r.cfg.maxTxPerWindow else 0
  {
    hide Ran, Alike, Within, Increasing, AllCleared, Cleared;
    RunIsSound(r, w, ms, start);
    WindowCount(Outcome(r, w, ms).deals, r.cfg, hi);
  }

  ghost predicate NonnegativeFills(deals: seq<Deal>) {
    forall k :: 0 <= k < |deals| ==> deals[k].fill.Gross() >= 0.0
  }

  lemma {:induction false} RegistersShrink(deals: seq<Deal>, lo: int, earlier: int)
    requires earlier <= lo && NonnegativeFills(deals)
    ensures 0.0 <= Registers(Since(deals, lo)) <= Registers(Since(deals, earlier))
  {
    hide Fill.Gross;
    if deals != [] {
      var init, d := deals[..|deals| - 1], deals[|deals| - 1];
      assert NonnegativeFills(init);
      RegistersShrink(init, lo, earlier);
      assert d.fill.Gross() >= 0.0;
      RegistersNext(Since(init, lo), d);
      RegistersNext(Since(init, earlier), d);
      assert Since(init, lo) + [] == Since(init, lo);
      assert Since(init, earlier) + [] == Since(init, earlier);
    }
  }

  lemma RegistersNext(deals: seq<Deal>, d: Deal)
    ensures Registers(deals + [d]) == Registers(deals) + d.fill.Gross()
  {
    assert (deals + [d])[..|deals|] == deals;
  }

  /** For every fill and every spend window that ends at it or later: what the earlier fills
      in the window registered, plus that fill at its decision price, is within budget. */
  lemma {:induction false} WindowSpend(deals: seq<Deal>, cfg: Config, k: nat, hi: int)
    requires k < |deals| && AllCleared(deals, cfg) && NonnegativeFills(deals) && cfg.maxNotionalPerWindow.Some?
    requires deals[k].fill.ts <= hi
    ensures Registers(Since(deals[..k], hi - cfg.SpendWindow()))
        + deals[k].decision.intent.Notional(deals[k].decision.tick.price)
         <= cfg.maxNotionalPerWindow.value + TINY
    decreases |deals|
  {
    hide Registers, Since, Intent.Notional, Fill.Gross;
    var init, d := deals[..|deals| - 1], deals[|deals| - 1];
    assert NonnegativeFills(init);
    if k < |deals| - 1 {
      WindowSpend(init, cfg, k, hi);
      assert init[..k] == deals[..k];
    } else {
      RegistersShrink(init, hi - cfg.SpendWindow(), d.decision.tick.ts - cfg.SpendWindow());
    }
  }

  /** The spend budget over a whole run: ordinary intents, no assumption on the wallet. */
  lemma SpendBudgetHolds(r: Setup, w: Wallet, ms: seq<Moment>, start: int, k: nat, hi: int)
    requires Timed(ms, start) && r.cfg.maxNotionalPerWindow.Some?
    requires AllOrdinary(r, ms)
    requires k < |Outcome(r, w, ms).deals| && Outcome(r, w, ms).deals[k].fill.ts <= hi
    ensures var deals := Outcome(r, w, ms).deals;
      var span := if r.cfg.spendWindowSteps.Some? then r.cfg.spendWindowSteps.value else r.cfg.windowSteps;
      Registers(Since(deals[..k], hi - span)) + deals[k].decision.intent.Notional(deals[k].decision.tick.price)
      <= r.cfg.maxNotionalPerWindow.value + 0.000000001
  {
    hide Ran, Alike, Increasing, AllCleared, Cleared, Registers, Since, Intent.Notional, AllOrdinary;
    RunIsSound(r, w, ms, start);
    FillsAreNonnegative(r, w, ms);
    WindowSpend(Outcome(r, w, ms).deals, r.cfg, k, hi);
  }

  /** Positive amounts and prices, prices on the rounding grid, intents for the market's symbol. */
  ghost predicate AllOrdinary(r: Setup, ms: seq<Moment>) {
    forall j, k :: 0 <= j < |ms| && 0 <= k < |ms| && ms[j].proposal.Some? ==>
      && Ordinary(r.executor, r.round6, ms[j].proposal.value, ms[k].tick)
      && ms[j].proposal.value.symbol == ms[k].tick.symbol
  }

  /** Every deal was proposed on some tick of the run and filled at some tick's price; with a
      delay, at the price of the very next tick, otherwise at that of the same one. */
  ghost predicate FilledFrom(r: Setup, d: Deal, ms: seq<Moment>) {
    exists j: nat :: DecidedAt(r, d, ms, j)
  }

  ghost predicate DecidedAt(r: Setup, d: Deal, ms: seq<Moment>, j: nat) {
    var filled := if r.delay <= 0 then j else j + 1;
    && filled < |ms|
    && d.decision.tick == ms[j].tick && ms[j].proposal == Some(d.decision.intent)
    && d.fill == FillFor(r.executor, r.round6, d.decision.intent, ms[filled].tick)
  }

  ghost predicate Traced(r: Setup, s: State, ms: seq<Moment>) {
    && (forall k :: 0 <= k < |s.deals| ==> FilledFrom(r, s.deals[k], ms))
    && (s.pending.Some? ==>
          && ms != [] && r.delay > 0 && ms[|ms| - 1].tick == s.pending.value.tick
          && ms[|ms| - 1].proposal == Some(s.pending.value.intent))
  }

  lemma FilledFromMore(r: Setup, d: Deal, ms: seq<Moment>, m: Moment)
    requires FilledFrom(r, d, ms)
    ensures FilledFrom(r, d, ms + [m])
  {
    var j: nat :| DecidedAt(r, d, ms, j);
    var more := ms + [m];
    assert DecidedAt(r, d, more, j);
  }

  lemma SettlingIsTraced(r: Setup, s: State, d: Decision, t: Tick, ms: seq<Moment>)
    requires forall k :: 0 <= k < |s.deals| ==> FilledFrom(r, s.deals[k], ms)
    requires FilledFrom(r, Deal(d, FillFor(r.executor, r.round6, d.intent, t)), ms)
    ensures var after := Settled(r, s, d, t);
      && after.pending == s.pending && forall k :: 0 <= k < |after.deals| ==> FilledFrom(r, after.deals[k], ms)
  {
    hide Applied, FillFor, FilledFrom, SnapshotOf, Registered;
  }

  /** No look-ahead: whatever the agent does, a delayed fill never sees the bar that
      decided it, and nothing fills that was not proposed. */
  lemma {:induction false} FillsAreTraced(r: Setup, w: Wallet, ms: seq<Moment>)
    ensures Traced(r, Outcome(r, w, ms), ms)
  {
    hide Traced, Stepped;
    if ms == [] {
      NothingIsTraced(r, w);
    } else {
      var init, m := ms[..|ms| - 1], ms[|ms| - 1];
      assert init + [m] == ms;
      FillsAreTraced(r, w, init);
      OpeningIsTraced(r, Outcome(r, w, init), init, m);
      DecidingIsTraced(r, Opened(r, Outcome(r, w, init), m.tick), init, m);
      SteppedIs(r, Outcome(r, w, init), m);
    }
  }

  lemma NothingIsTraced(r: Setup, w: Wallet)
    ensures Traced(r, Outcome(r, w, []), [])
  {
  }

  lemma SteppedIs(r: Setup, s: State, m: Moment)
    ensures Stepped(r, s, m) == Decided(r, Opened(r, s, m.tick), m)
  {
  }

  lemma OpeningIsTraced(r: Setup, s: State, ms: seq<Moment>, m: Moment)
    requires Traced(r, s, ms)
    ensures var settled := Opened(r, s, m.tick);
      settled.pending.None? && forall k :: 0 <= k < |settled.deals| ==> FilledFrom(r, settled.deals[k], ms + [m])
  {
    hide FilledFrom, Settled, FillFor;
    forall k | 0 <= k < |s.deals| ensures FilledFrom(r, s.deals[k], ms + [m]) {
      FilledFromMore(r, s.deals[k], ms, m);
    }
    if s.pending.Some? {
      OneMore(r, s.pending.value, FillFor(r.executor, r.round6, s.pending.value.intent, m.tick), ms + [m], |ms| - 1);
      SettlingIsTraced(r, s.(pending := None), s.pending.value, m.tick, ms + [m]);
    }
  }

  lemma DecidingIsTraced(r: Setup, s: State, ms: seq<Moment>, m: Moment)
    requires s.pending.None? && forall k :: 0 <= k < |s.deals| ==> FilledFrom(r, s.deals[k], ms + [m])
    ensures Traced(r, Decided(r, s, m), ms + [m])
  {
    hide Evaluated, FilledFrom, Settled, FillFor;
    if m.proposal.Some? && r.delay <= 0 {
      var d := Decision(m.proposal.value, m.tick);
      OneMore(r, d, FillFor(r.executor, r.round6, d.intent, m.tick), ms + [m], |ms|);
      SettlingIsTraced(r, Ruled(r, s, m.tick, d.intent).0, d, m.tick, ms + [m]);
    }
  }

  lemma OneMore(r: Setup, d: Decision, f: Fill, ms: seq<Moment>, j: nat)
    requires DecidedAt(r, Deal(d, f), ms, j)
    ensures FilledFrom(r, Deal(d, f), ms)
  {
  }

  lemma FillsAreNonnegative(r: Setup, w: Wallet, ms: seq<Moment>)
    requires AllOrdinary(r, ms)
    ensures NonnegativeFills(Outcome(r, w, ms).deals)
  {
    hide Ran, Fill.Gross, FillFor;
    FillsAreTraced(r, w, ms);
    var deals := Outcome(r, w, ms).deals;
    forall n | 0 <= n < |deals| ensures deals[n].fill.Gross() >= 0.0 {
      var d := deals[n];
      assert FilledFrom(r, d, ms);
      var j: nat :| DecidedAt(r, d, ms, j);
      var k := if r.delay <= 0 then j else j + 1;
      FillIsAdverse(r.executor, r.round6, d.decision.intent, ms[k].tick);
    }
  }
}
