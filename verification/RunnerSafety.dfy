/** More over whole runs: the breaker stays tripped through crashes, balances add up, trading
    earns nothing the market did not pay, and what the final mark is worth. */
module RunnerSafety {
  import opened Sums
  import opened Wrappers
  import opened Trading
  import opened Policy
  import opened Runner
  import opened RunnerWindows

  // ---- the breaker ------------------------------------------------------------------------------

  /** Once tripped: nothing pending and, with a journal, a tripped checkpoint on disk. */
  ghost predicate Latched(r: Setup, s: State) {
    s.engine.tripped ==>
      && s.pending.None? && s.engine.starting.Some?
      && (r.journaled ==> s.saved != [] && s.saved[|s.saved| - 1].engine == s.engine)
  }

  lemma SettlingKeepsLatch(r: Setup, s: State, d: Decision, t: Tick)
    ensures var after := Settled(r, s, d, t);
      && after.engine.tripped == s.engine.tripped && after.engine.starting == s.engine.starting
      && after.pending == s.pending && after.rulings == s.rulings
  {
    hide Applied, FillFor, SnapshotOf;
  }

  lemma RulingLatches(r: Setup, s: State, t: Tick, i: Intent)
    ensures var (ruled, v) := Ruled(r, s, t, i);
      && ruled.engine.starting.Some?
      && (v == ALLOW ==> !ruled.engine.tripped) && (s.engine.tripped ==> ruled.engine.tripped)
      && (s.engine.tripped && s.engine.starting.Some? ==> ruled.engine == s.engine)
      && (s.engine.starting.Some? ==> ruled.engine.starting == s.engine.starting)
  {
    hide Times, PrunedTs, PrunedSpend, SumSpent, Intent.Notional, Solvency, Floor;
  }

  lemma DecidingLatches(r: Setup, s: State, m: Moment)
    requires s.pending.None? && Latched(r, s)
    ensures Latched(r, Decided(r, s, m)) && (s.engine.tripped ==> Decided(r, s, m).engine == s.engine)
    ensures s.engine.tripped ==> Decided(r, s, m).deals == s.deals && Decided(r, s, m).pending.None?
  {
    hide Settled, Ruled, SnapshotOf;
    if m.proposal.Some? {
      var i, t := m.proposal.value, m.tick;
      RulingLatches(r, s, t, i);
      RulingOnlyRules(r, s, t, i);
      SettlingKeepsLatch(r, Ruled(r, s, t, i).0, Decision(i, t), t);
    }
  }

  lemma RulingOnlyRules(r: Setup, s: State, t: Tick, i: Intent)
    ensures var (ruled, v) := Ruled(r, s, t, i);
      && ruled.deals == s.deals && ruled.pending == s.pending && ruled.wallet == s.wallet && ruled.saved == s.saved
      && ruled.events == s.events && ruled.ledger == s.ledger
      && ruled.rulings == s.rulings + [Ruling(t.ts, t.price, i, v)]
  {
    hide Evaluated;
  }

  lemma {:induction false} RunLatches(r: Setup, w: Wallet, ms: seq<Moment>)
    ensures Latched(r, Outcome(r, w, ms))
  {
    hide Settled, Decided;
    if ms != [] {
      var init, m := ms[..|ms| - 1], ms[|ms| - 1];
      RunLatches(r, w, init);
      var s := Outcome(r, w, init);
      if s.pending.Some? {
        SettlingKeepsLatch(r, s.(pending := None), s.pending.value, m.tick);
      }
      DecidingLatches(r, Opened(r, s, m.tick), m);
    }
  }

  /** Once a tick has tripped the breaker, no later tick fills, nothing is allowed again, and
      the engine does not change; with a journal, the checkpoint on disk from the end of the
      tripping tick on holds that very engine, so a restart restores it. */
  lemma {:induction false} TripIsFinal(r: Setup, w: Wallet, ms: seq<Moment>, n: nat)
    requires n <= |ms| && Outcome(r, w, ms[..n]).engine.tripped
    ensures var tripped, now := Outcome(r, w, ms[..n]), Outcome(r, w, ms);
      && now.engine == tripped.engine && now.deals == tripped.deals && now.pending.None?
      && tripped.rulings <= now.rulings
      && (forall k :: |tripped.rulings| <= k < |now.rulings| ==>
            now.rulings[k].verdict == CIRCUIT_BREAKER || now.rulings[k].verdict == KILL_SWITCH)
      && (r.journaled ==>
            && tripped.saved != [] && tripped.saved <= now.saved
            && forall k :: |tripped.saved| - 1 <= k < |now.saved| ==> now.saved[k].engine == tripped.engine)
    decreases |ms|
  {
    hide Settled, Decided, SnapshotOf;
    RunLatches(r, w, ms[..n]);
    if n == |ms| {
      assert ms[..n] == ms;
    } else {
      var init, m := ms[..|ms| - 1], ms[|ms| - 1];
      assert init[..n] == ms[..n];
      TripIsFinal(r, w, init, n);
      RunLatches(r, w, init);
      StepWhileTripped(r, Outcome(r, w, init), m);
    }
  }

  lemma StepWhileTripped(r: Setup, s: State, m: Moment)
    requires s.engine.tripped && s.pending.None? && s.engine.starting.Some?
    ensures var after := Stepped(r, s, m);
      && after.engine == s.engine && after.deals == s.deals && after.pending.None?
      && s.rulings <= after.rulings
      && (forall k :: |s.rulings| <= k < |after.rulings| ==>
            after.rulings[k].verdict == CIRCUIT_BREAKER || after.rulings[k].verdict == KILL_SWITCH)
      && s.saved <= after.saved
      && (forall k :: |s.saved| <= k < |after.saved| ==> after.saved[k].engine == s.engine)
  {
    hide Times, PrunedTs, PrunedSpend, SumSpent, Intent.Notional, Solvency, Floor, SnapshotOf;
  }

  // ---- the gate -----------------------------------------------------------------------------------

  ghost predicate WasAllowed(s: State, d: Decision) {
    Ruling(d.tick.ts, d.tick.price, d.intent, ALLOW) in s.rulings
  }

  ghost predicate AllAllowed(s: State) {
    && (forall k :: 0 <= k < |s.deals| ==> WasAllowed(s, s.deals[k].decision))
    && (s.pending.Some? ==> WasAllowed(s, s.pending.value))
  }

  lemma SettlingWasAllowed(r: Setup, s: State, d: Decision, t: Tick)
    requires AllAllowed(s) && WasAllowed(s, d)
    ensures AllAllowed(Settled(r, s, d, t))
  {
    hide Applied, FillFor, SnapshotOf, Registered;
  }

  /** Nothing executes, and nothing waits to, that the policy did not allow on the tick it was
      proposed; each ruling is in the trail. */
  lemma {:induction false} OnlyTheAllowedExecutes(r: Setup, w: Wallet, ms: seq<Moment>)
    ensures AllAllowed(Outcome(r, w, ms))
  {
    hide Settled, Ruled, SnapshotOf;
    if ms != [] {
      var init, m := ms[..|ms| - 1], ms[|ms| - 1];
      OnlyTheAllowedExecutes(r, w, init);
      var s := Outcome(r, w, init);
      if s.pending.Some? {
        SettlingWasAllowed(r, s.(pending := None), s.pending.value, m.tick);
      }
      var settled := Opened(r, s, m.tick);
      if m.proposal.Some? {
        var ruled := Ruled(r, settled, m.tick, m.proposal.value);
        RulingOnlyRules(r, settled, m.tick, m.proposal.value);
        assert AllAllowed(ruled.0);
        if ruled.1 == ALLOW {
          assert WasAllowed(ruled.0, Decision(m.proposal.value, m.tick));
          SettlingWasAllowed(r, ruled.0, Decision(m.proposal.value, m.tick), m.tick);
        }
      }
    }
  }

  // ---- checkpoints --------------------------------------------------------------------------------

  /** What is on disk would restore to an engine nobody can tell from the live one, and the
      same wallet. */
  ghost predicate Durable(r: Setup, s: State, now: int) {
    && (s.saved != [] <==> s.deals != [] || s.engine.tripped)
    && (s.saved != [] ==>
          var c := s.saved[|s.saved| - 1];
          && c.wallet == SnapshotOf(s.wallet) && Alike(c.engine, s.engine, r.cfg, now))
  }

  lemma AlikeRefl(e: Engine, cfg: Config, now: int)
    ensures Alike(e, e, cfg, now)
  {
  }

  lemma SettlingIsDurable(r: Setup, s: State, d: Decision, t: Tick, now: int)
    requires r.journaled && Durable(r, s, now) && now <= t.ts
    ensures Durable(r, Settled(r, s, d, t), t.ts)
  {
    hide Alike, Applied, FillFor, SnapshotOf, Registered, Fills;
    var after := Settled(r, s, d, t);
    var f := FillFor(r.executor, r.round6, d.intent, t);
    AlikeRefl(after.engine, r.cfg, t.ts);
    if s.saved != [] {
      AlikeLater(s.saved[|s.saved| - 1].engine, s.engine, r.cfg, now, t.ts);
    }
  }

  /** Ruling moves the live engine away from the saved one only by pruning: a fill has been
      anchored before it could be saved. */
  lemma RulingIsDurable(r: Setup, s: State, t: Tick, i: Intent, now: int)
    requires r.journaled && Durable(r, s, now) && now <= t.ts
        && (s.deals != [] || s.engine.tripped ==> s.engine.starting.Some?)
    requires !Ruled(r, s, t, i).0.engine.tripped
    ensures Durable(r, Ruled(r, s, t, i).0, t.ts)
  {
    hide Alike, Evaluated, SnapshotOf, Fills;
    RulingOnlyRules(r, s, t, i);
    RulingLatches(r, s, t, i);
    if s.saved != [] {
      var c := s.saved[|s.saved| - 1];
      assert s.engine.starting.Some?;
      PruningIsInvisible(s.engine, r.cfg, i, t, s.wallet, None);
      AlikeLater(c.engine, s.engine, r.cfg, now, t.ts);
      AlikeBack(c.engine, s.engine, Ruled(r, s, t, i).0.engine, r.cfg, t.ts);
    }
  }

  lemma AlikeBack(a: Engine, b: Engine, c: Engine, cfg: Config, now: int)
    requires Alike(a, b, cfg, now) && Alike(c, b.(tripped := c.tripped), cfg, now) && c.tripped == b.tripped
    ensures Alike(a, c, cfg, now)
  {
  }

  lemma DecidingIsDurable(r: Setup, s: State, m: Moment)
    requires r.journaled && Durable(r, s, m.tick.ts) && (s.deals != [] || s.engine.tripped ==> s.engine.starting.Some?)
    ensures Durable(r, Decided(r, s, m), m.tick.ts)
  {
    hide Alike, Settled, Ruled, SnapshotOf, Fills;
    if m.proposal.Some? {
      var i, t := m.proposal.value, m.tick;
      var (ruled, v) := Ruled(r, s, t, i);
      RulingLatches(r, s, t, i);
      RulingOnlyRules(r, s, t, i);
      if ruled.engine.tripped {
        AlikeRefl(ruled.engine, r.cfg, t.ts);
      } else {
        RulingIsDurable(r, s, t, i, t.ts);
        if v == ALLOW && r.delay <= 0 {
          SettlingIsDurable(r, ruled, Decision(i, t), t, t.ts);
        }
      }
    }
  }

  /** Anything executed or pending was ruled on first, so the floor was anchored. */
  ghost predicate AnchoredBefore(s: State) {
    s.deals != [] || s.engine.tripped || s.pending.Some? ==> s.engine.starting.Some?
  }

  lemma {:induction false} RunIsAnchored(r: Setup, w: Wallet, ms: seq<Moment>)
    ensures AnchoredBefore(Outcome(r, w, ms))
  {
    hide Settled, Ruled, SnapshotOf;
    if ms != [] {
      var init, m := ms[..|ms| - 1], ms[|ms| - 1];
      RunIsAnchored(r, w, init);
      var s := Outcome(r, w, init);
      if s.pending.Some? {
        SettlingKeepsLatch(r, s.(pending := None), s.pending.value, m.tick);
      }
      var settled := Opened(r, s, m.tick);
      if m.proposal.Some? {
        RulingLatches(r, settled, m.tick, m.proposal.value);
        RulingOnlyRules(r, settled, m.tick, m.proposal.value);
        SettlingKeepsLatch(r, Ruled(r, settled, m.tick, m.proposal.value).0, Decision(m.proposal.value, m.tick),
                           m.tick);
      }
    }
  }

  lemma {:induction false} RunIsDurable(r: Setup, w: Wallet, ms: seq<Moment>, start: int)
    requires r.journaled && Timed(ms, start)
    ensures Durable(r, Outcome(r, w, ms), Now(ms, start))
  {
    hide Durable, Settled, Decided;
    if ms == [] {
      FreshIsDurable(r, w, start);
    } else {
      var init, m := ms[..|ms| - 1], ms[|ms| - 1];
      RunIsDurable(r, w, init, start);
      RunIsAnchored(r, w, init);
      var s := Outcome(r, w, init);
      OpeningIsDurable(r, s, m.tick, Now(init, start));
      DecidingIsDurable(r, Opened(r, s, m.tick), m);
    }
  }

  lemma FreshIsDurable(r: Setup, w: Wallet, now: int)
    ensures Durable(r, Fresh(NEW_ENGINE, w), now)
  {
  }

  lemma OpeningIsDurable(r: Setup, s: State, t: Tick, now: int)
    requires r.journaled && Durable(r, s, now) && now <= t.ts && AnchoredBefore(s)
    ensures var settled := Opened(r, s, t);
      Durable(r, settled, t.ts) && (settled.deals != [] || settled.engine.tripped ==> settled.engine.starting.Some?)
  {
    hide Alike, Settled, SnapshotOf, Fills;
    if s.pending.Some? {
      var cleared := s.(pending := None);
      assert Durable(r, cleared, now);
      SettlingIsDurable(r, cleared, s.pending.value, t, now);
      SettlingKeepsLatch(r, cleared, s.pending.value, t);
    } else if s.saved != [] {
      AlikeLater(s.saved[|s.saved| - 1].engine, s.engine, r.cfg, now, t.ts);
    }
  }

  lemma SettlingRecords(r: Setup, s: State, d: Decision, t: Tick)
    requires r.journaled && s.ledger == Fills(s.deals)
    ensures Settled(r, s, d, t).ledger == Fills(Settled(r, s, d, t).deals)
  {
    hide Applied, FillFor, SnapshotOf, Registered, Fills;
    FillsNext(s.deals, d);
  }

  /** In a run without a crash the ledger lists exactly the fills. */
  lemma {:induction false} LedgerListsTheFills(r: Setup, w: Wallet, ms: seq<Moment>)
    requires r.journaled
    ensures Outcome(r, w, ms).ledger == Fills(Outcome(r, w, ms).deals)
  {
    hide Settled, Ruled, SnapshotOf;
    if ms != [] {
      var init, m := ms[..|ms| - 1], ms[|ms| - 1];
      LedgerListsTheFills(r, w, init);
      var s := Outcome(r, w, init);
      if s.pending.Some? {
        SettlingRecords(r, s.(pending := None), s.pending.value, m.tick);
      }
      var settled := Opened(r, s, m.tick);
      if m.proposal.Some? {
        RulingOnlyRules(r, settled, m.tick, m.proposal.value);
        SettlingRecords(r, Ruled(r, settled, m.tick, m.proposal.value).0, Decision(m.proposal.value, m.tick), m.tick);
      }
    }
  }

  /** Crash at the end of any tick and restore the checkpoint: the wallet is the one lost, and
      the engine rules as the lost one would on every later sequence of calls.  There is a
      checkpoint exactly when something has filled or the breaker has tripped. */
  lemma RestoreLosesNothing(r: Setup, w: Wallet, ms: seq<Moment>, start: int, calls: seq<Call>, i: Intent, t: Tick,
                            v: Wallet, age: Option<int>)
    requires r.journaled && Timed(ms, start)
    requires InTimeOrder(calls, Now(ms, start)) && t.ts >= TimeAfter(calls, Now(ms, start))
    ensures var s := Outcome(r, w, ms);
      && s.ledger == Fills(s.deals)
      && (s.saved != [] <==> s.deals != [] || s.engine.tripped)
      && (s.saved != [] ==>
            var c := s.saved[|s.saved| - 1];
            && c.wallet == SnapshotOf(s.wallet)
            && (QUOTE_KEY !in s.wallet.positions ==> FromSnapshot(c.wallet) == s.wallet)
            && c.engine.starting == s.engine.starting && c.engine.tripped == s.engine.tripped
            && Evaluated(AfterCalls(c.engine, r.cfg, calls), r.cfg, i, t, v, age).1
               == Evaluated(AfterCalls(s.engine, r.cfg, calls), r.cfg, i, t, v, age).1)
  {
    hide Evaluated, AfterCalls, Ran, InTimeOrder, Timed, PrunedTs, PrunedSpend;
    RunIsDurable(r, w, ms, start);
    LedgerListsTheFills(r, w, ms);
    var s := Outcome(r, w, ms);
    if s.saved != [] {
      AlikeForever(s.saved[|s.saved| - 1].engine, s.engine, r.cfg, Now(ms, start), calls, i, t, v, age);
      WalletRoundTrip(s.wallet);
    }
  }

  // ---- balances -------------------------------------------------------------------------------------

  /** The wallet that results from applying fills in order, if none is refused. */
  function Replayed(w: Wallet, deals: seq<Deal>): Option<Wallet> {
    if deals == [] then Some(w)
    else match Replayed(w, deals[..|deals| - 1])
      case None => None
      case Some(v) => Applied(v, deals[|deals| - 1].fill)
  }

  lemma {:induction false} OnlyFillsMoveTheWallet(r: Setup, w: Wallet, ms: seq<Moment>)
    ensures Replayed(w, Outcome(r, w, ms).deals) == Some(Outcome(r, w, ms).wallet)
  {
    hide Settled, Ruled, Applied, SnapshotOf;
    if ms != [] {
      var init, m := ms[..|ms| - 1], ms[|ms| - 1];
      OnlyFillsMoveTheWallet(r, w, init);
      var s := Outcome(r, w, init);
      if s.pending.Some? {
        SettlingReplays(r, s.(pending := None), s.pending.value, m.tick, w);
      }
      var settled := Opened(r, s, m.tick);
      if m.proposal.Some? {
        RulingOnlyRules(r, settled, m.tick, m.proposal.value);
        SettlingReplays(r, Ruled(r, settled, m.tick, m.proposal.value).0, Decision(m.proposal.value, m.tick), m.tick,
                        w);
      }
    }
  }

  lemma SettlingReplays(r: Setup, s: State, d: Decision, t: Tick, w: Wallet)
    requires Replayed(w, s.deals) == Some(s.wallet)
    ensures Replayed(w, Settled(r, s, d, t).deals) == Some(Settled(r, s, d, t).wallet)
  {
    hide Applied, FillFor, SnapshotOf, Registered;
    var f := FillFor(r.executor, r.round6, d.intent, t);
    assert (s.deals + [Deal(d, f)])[..|s.deals|] == s.deals;
  }

  function QuoteMoved(deals: seq<Deal>): real {
    if deals == [] then 0.0 else QuoteMoved(deals[..|deals| - 1]) + deals[|deals| - 1].fill.QuoteDelta()
  }

  function BaseMoved(deals: seq<Deal>, symbol: string): real {
    if deals == [] then 0.0
    else
      var f := deals[|deals| - 1].fill;
      BaseMoved(deals[..|deals| - 1], symbol) + if f.symbol == symbol then f.BaseDelta() else 0.0
  }

  /** How many of the deals are in this symbol. */
  function Traded(deals: seq<Deal>, symbol: string): nat {
    if deals == [] then 0
    else Traded(deals[..|deals| - 1], symbol) + if deals[|deals| - 1].fill.symbol == symbol then 1 else 0
  }

  ghost predicate AddsUp(w: Wallet, deals: seq<Deal>, v: Wallet, symbol: string) {
    && 0.0 <= v.quote - (w.quote + QuoteMoved(deals)) <= Times(|deals| as real, TINY)
    && 0.0 <= v.Base(symbol) - (w.Base(symbol) + BaseMoved(deals, symbol)) <= Times(Traded(deals, symbol) as real, TINY)
  }

  lemma {:induction false} ReplayAddsUp(w: Wallet, deals: seq<Deal>, symbol: string)
    requires w.Solvent() && Replayed(w, deals).Some?
    ensures Replayed(w, deals).value.Solvent() && AddsUp(w, deals, Replayed(w, deals).value, symbol)
  {
    hide Applied, Times, Fill.QuoteDelta, Fill.BaseDelta, Wallet.Solvent, Wallet.Base;
    if deals == [] {
      TimesNext(0, TINY);
    } else {
      var init, f := deals[..|deals| - 1], deals[|deals| - 1].fill;
      ReplayAddsUp(w, init, symbol);
      FillKeepsSolvency(Replayed(w, init).value, f);
      TimesNext(|init|, TINY);
      TimesNext(Traded(init, symbol), TINY);
    }
  }

  /** Over any run balances stay nonnegative, and each is its start plus the fills' deltas plus
      a clamp of at most 1e-9 for each fill that touched it. */
  lemma BalancesAddUp(r: Setup, w: Wallet, ms: seq<Moment>, symbol: string)
    requires w.Solvent()
    ensures var s := Outcome(r, w, ms); s.wallet.Solvent() && AddsUp(w, s.deals, s.wallet, symbol)
  {
    hide AddsUp, Ran, Wallet.Solvent, Replayed;
    OnlyFillsMoveTheWallet(r, w, ms);
    ReplayAddsUp(w, Outcome(r, w, ms).deals, symbol);
  }

  // ---- equity ---------------------------------------------------------------------------------------

  /** What holding the inventory through the run earned from price moves alone. */
  ghost function MarketGain(r: Setup, w: Wallet, ms: seq<Moment>, symbol: string): real {
    if |ms| <= 1 then 0.0
    else
      var init := ms[..|ms| - 1];
      MarketGain(r, w, init, symbol)
      + Times(Outcome(r, w, init).wallet.Base(symbol), ms[|ms| - 1].tick.price - init[|init| - 1].tick.price)
  }

  /** The most that clamping can have given away, two fills a tick at worst. */
  ghost function ClampGain(ms: seq<Moment>): real {
    if ms == [] then 0.0
    else ClampGain(ms[..|ms| - 1]) + 2.0 * (TINY + Times(TINY, ms[|ms| - 1].tick.price))
  }

  lemma SettlingLosesAtMostTheClamp(r: Setup, s: State, d: Decision, t: Tick)
    requires Ordinary(r.executor, r.round6, d.intent, t) && s.wallet.Solvent() && d.intent.symbol == t.symbol
    ensures var after := Settled(r, s, d, t);
      && after.wallet.Solvent()
      && after.wallet.EquityAt(t.symbol, t.price) <= s.wallet.EquityAt(t.symbol, t.price) + TINY + Times(TINY, t.price)
  {
    hide Applied, FillFor, SnapshotOf, Registered, Wallet.Solvent, Wallet.EquityAt, Times, Ordinary;
    var f := FillFor(r.executor, r.round6, d.intent, t);
    TinyIsNothing(r, d.intent, t);
    if Applied(s.wallet, f).Some? {
      FillKeepsSolvency(s.wallet, f);
      FillLowersEquity(r.executor, r.round6, d.intent, t, s.wallet);
    }
  }

  lemma TinyIsNothing(r: Setup, i: Intent, t: Tick)
    requires Ordinary(r.executor, r.round6, i, t)
    ensures TINY + Times(TINY, t.price) >= 0.0
  {
  }

  /** No tick raises equity marked at its own price by more than the clamps. */
  lemma TickNeverGains(r: Setup, s: State, m: Moment)
    requires s.wallet.Solvent() && m.tick.price > 0.0
    requires s.pending.Some? ==>
               Ordinary(r.executor, r.round6, s.pending.value.intent, m.tick)
                   && s.pending.value.intent.symbol == m.tick.symbol
    requires m.proposal.Some? ==>
               Ordinary(r.executor, r.round6, m.proposal.value, m.tick) && m.proposal.value.symbol == m.tick.symbol
    ensures var after := Stepped(r, s, m);
      && after.wallet.Solvent()
      && after.wallet.EquityAt(m.tick.symbol, m.tick.price)
         <= s.wallet.EquityAt(m.tick.symbol, m.tick.price) + 2.0 * (TINY + Times(TINY, m.tick.price))
  {
    hide Settled, Ruled, Wallet.Solvent, Wallet.EquityAt, Times, Ordinary, SnapshotOf;
    PositiveTimes(m.tick.price);
    if s.pending.Some? {
      SettlingLosesAtMostTheClamp(r, s.(pending := None), s.pending.value, m.tick);
    }
    var settled := Opened(r, s, m.tick);
    if m.proposal.Some? {
      RulingOnlyRules(r, settled, m.tick, m.proposal.value);
      SettlingLosesAtMostTheClamp(r, Ruled(r, settled, m.tick, m.proposal.value).0,
                                  Decision(m.proposal.value, m.tick), m.tick);
    }
  }

  lemma PositiveTimes(price: real)
    requires price > 0.0
    ensures Times(TINY, price) >= 0.0
  {
  }

  lemma MarkMoves(w: Wallet, symbol: string, from: real, to: real)
    ensures w.EquityAt(symbol, to) == w.EquityAt(symbol, from) + Times(w.Base(symbol), to - from)
  {
    var b := w.Base(symbol);
    assert b * to == b * from + b * (to - from);
  }

  ghost predicate OneMarket(ms: seq<Moment>, symbol: string) {
    forall k :: 0 <= k < |ms| ==> ms[k].tick.symbol == symbol && ms[k].tick.price > 0.0
  }

  /** Over a whole run, profit is at most what the market paid on the inventory held: trading
      itself never earns, whatever the agent does, up to the clamps. */
  lemma {:induction false} ProfitIsTheMarkets(r: Setup, w: Wallet, ms: seq<Moment>, symbol: string)
    requires ms != [] && w.Solvent() && OneMarket(ms, symbol) && AllOrdinary(r, ms)
    ensures Outcome(r, w, ms).wallet.EquityAt(symbol, ms[|ms| - 1].tick.price)
         <= w.EquityAt(symbol, ms[0].tick.price) + MarketGain(r, w, ms, symbol) + ClampGain(ms)
    ensures Outcome(r, w, ms).wallet.Solvent()
  {
    hide Stepped, Wallet.Solvent, Wallet.EquityAt, Times, Ordinary, Wallet.Base;
    var init, m := ms[..|ms| - 1], ms[|ms| - 1];
    var s := Outcome(r, w, init);
    PendingIsOrdinary(r, w, init, m);
    if init == [] {
      assert ClampGain(init) == 0.0;
      TickNeverGains(r, s, m);
    } else {
      assert AllOrdinary(r, init) && OneMarket(init, symbol) && init[0] == ms[0];
      ProfitIsTheMarkets(r, w, init, symbol);
      MarkMoves(s.wallet, symbol, init[|init| - 1].tick.price, m.tick.price);
      TickNeverGains(r, s, m);
    }
  }

  lemma PendingIsOrdinary(r: Setup, w: Wallet, init: seq<Moment>, m: Moment)
    requires AllOrdinary(r, init + [m])
    ensures var s := Outcome(r, w, init);
      s.pending.Some? ==>
        Ordinary(r.executor, r.round6, s.pending.value.intent, m.tick) && s.pending.value.intent.symbol == m.tick.symbol
    ensures m.proposal.Some?
        ==> Ordinary(r.executor, r.round6, m.proposal.value, m.tick) && m.proposal.value.symbol == m.tick.symbol
  {
    hide Ran, Ordinary, FilledFrom;
    FillsAreTraced(r, w, init);
    var ms := init + [m];
    assert ms[|init|] == m;
    if Outcome(r, w, init).pending.Some? {
      assert ms[|init| - 1] == init[|init| - 1];
    }
  }

  // ---- the final mark -------------------------------------------------------------------------------

  /** The price final equity is marked at: that of the last tick, unless its only action was
      to approve an intent for the next one, and then that of the tick before. */
  function MarkedAt(ms: seq<Moment>, s: State): Option<real> {
    if s.events == [] then None else Some(s.events[|s.events| - 1].price)
  }

  lemma SettlingLogs(r: Setup, s: State, d: Decision, t: Tick)
    ensures var after := Settled(r, s, d, t);
      && s.events < after.events && after.events[|after.events| - 1].price == t.price && after.pending == s.pending
  {
    hide Applied, FillFor, SnapshotOf, Registered, Wallet.EquityAt, Times;
  }

  lemma DecidingLogs(r: Setup, s: State, m: Moment)
    requires s.pending.None?
    ensures var after := Decided(r, s, m);
      && s.events <= after.events && (after.events == s.events <==> after.pending.Some?)
      && (after.events != s.events ==> after.events[|after.events| - 1].price == m.tick.price)
  {
    hide Settled, Ruled, SnapshotOf, Wallet.EquityAt;
    if m.proposal.Some? {
      var d := Decision(m.proposal.value, m.tick);
      RulingOnlyRules(r, s, m.tick, m.proposal.value);
      SettlingLogs(r, Ruled(r, s, m.tick, m.proposal.value).0, d, m.tick);
    }
  }

  lemma StepLogs(r: Setup, s: State, m: Moment)
    ensures var after := Stepped(r, s, m);
      && s.events <= after.events
      && (after.events == s.events <==> s.pending.None? && after.pending.Some?)
      && (after.events != s.events ==> after.events[|after.events| - 1].price == m.tick.price)
  {
    hide Settled, Decided;
    if s.pending.Some? {
      SettlingLogs(r, s.(pending := None), s.pending.value, m.tick);
    }
    DecidingLogs(r, Opened(r, s, m.tick), m);
  }

  /** Final equity is marked at the last tick's price, unless that tick approved an intent and
      settled none: then it is the tick before, and with no tick before, at no price at all. */
  lemma FinalMark(r: Setup, w: Wallet, ms: seq<Moment>)
    requires ms != []
    ensures var init := ms[..|ms| - 1]; var s, before := Outcome(r, w, ms), Outcome(r, w, init);
      var quiet := s.pending.Some? && before.pending.None?;
      MarkedAt(ms, s) == if !quiet then Some(ms[|ms| - 1].tick.price)
                         else if init == [] then None else Some(init[|init| - 1].tick.price)
  {
    hide Stepped;
    var init := ms[..|ms| - 1];
    var before := Outcome(r, w, init);
    StepLogs(r, before, ms[|ms| - 1]);
    if init != [] {
      StepLogs(r, Outcome(r, w, init[..|init| - 1]), init[|init| - 1]);
    }
  }

  /** A run of one tick whose intent waits for the next: nothing traded, yet the report shows
      the whole position as a loss. */
  lemma UnpricedPositionReadsAsLoss(r: Setup, w: Wallet, m: Moment)
    requires r.delay > 0 && m.proposal.Some?
    requires Evaluated(NEW_ENGINE, r.cfg, m.proposal.value, m.tick, w, None).1 == ALLOW
    ensures var s := Outcome(r, w, [m]);
      && s.wallet == w
      && FinalEquity(s, m.tick.symbol, map[])
           == w.EquityAt(m.tick.symbol, m.tick.price) - Times(w.Base(m.tick.symbol), m.tick.price)
  {
    hide Evaluated, Times, Settled;
    var one := [m];
    OnePriceMarks(w.positions, map[]);
    assert one[..|one| - 1] == [] && one[|one| - 1] == m;
    assert Ran(r, Fresh(NEW_ENGINE, w), one[..|one| - 1]) == Fresh(NEW_ENGINE, w);
    assert Outcome(r, w, one) == Stepped(r, Fresh(NEW_ENGINE, w), m);
  }
}
