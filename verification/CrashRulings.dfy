/** When torn fills matter to a ruling: an engine that does not know them against one that does. */
module CrashRulings {
  import opened Sums
  import opened Wrappers
  import opened Trading
  import opened Policy
  import opened Runner
  import opened RunnerWindows
  import opened RunnerCrashes
  import opened CrashWindows

  ghost predicate Agree(a: Engine, b: Engine, cfg: Config, calls: seq<Call>, i: Intent, t: Tick, w: Wallet,
                             age: Option<int>)
  {
    Evaluated(AfterCalls(a, cfg, calls), cfg, i, t, w, age).1
    == Evaluated(AfterCalls(b, cfg, calls), cfg, i, t, w, age).1
  }

  /** After every later sequence of calls the two give the same ruling on anything. */
  ghost predicate RuleAlike(a: Engine, b: Engine, cfg: Config, now: int) {
    forall calls: seq<Call>, i: Intent, t: Tick, w: Wallet, age: Option<int> ::
      InTimeOrder(calls, now) && t.ts >= TimeAfter(calls, now) ==> Agree(a, b, cfg, calls, i, t, w, age)
  }

  /** With no torn fill left in either window, the engine rules as one that knows the whole ledger. */
  lemma FullHistoryRules(r: Setup, w: Wallet, hs: seq<Happening>, start: int)
    requires r.journaled && TimedLife(hs, start)
    requires var l, now := Lived(r, w, hs), NowIn(hs, start);
      Since(Torn(l.history), now - r.cfg.windowSteps) == [] && Since(Torn(l.history), now - r.cfg.SpendWindow()) == []
    ensures var l := Lived(r, w, hs);
      RuleAlike(l.s.engine, Unpruned(l.s.engine, Every(l.history)), r.cfg, NowIn(hs, start))
  {
    hide Lived, TimedLife, Every, Torn, Since, Evaluated, AfterCalls, InTimeOrder, Alike, Entries;
    LooksFullIff(r, w, hs, start);
    var l, now := Lived(r, w, hs), NowIn(hs, start);
    var full := Unpruned(l.s.engine, Every(l.history));
    forall calls: seq<Call>, i: Intent, t: Tick, v: Wallet, age: Option<int>
      | InTimeOrder(calls, now) && t.ts >= TimeAfter(calls, now)
      ensures Agree(l.s.engine, full, r.cfg, calls, i, t, v, age)
    {
      AlikeForever(l.s.engine, full, r.cfg, now, calls, i, t, v, age);
    }
  }

  // ---- engines that only the rate limit could tell apart ------------------------------------------

  /** Windows that look the same, or both full, from `now` on. */
  ghost predicate FullAlike(a: Engine, b: Engine, cfg: Config, now: int) {
    && a.starting == b.starting && a.tripped == b.tripped
    && forall c :: c >= now - cfg.windowSteps ==> FullAt(a, b, cfg, c)
  }

  ghost predicate FullAt(a: Engine, b: Engine, cfg: Config, c: int) {
    var x, y := PrunedTs(a.recent, c), PrunedTs(b.recent, c);
    x == y || (|x| >= cfg.maxTxPerWindow && |y| >= cfg.maxTxPerWindow)
  }

  lemma FullAlikeRules(a: Engine, b: Engine, cfg: Config, now: int, i: Intent, t: Tick, w: Wallet, age: Option<int>)
    requires FullAlike(a, b, cfg, now) && t.ts >= now && cfg.maxNotionalPerWindow.None?
    ensures Evaluated(a, cfg, i, t, w, age).1 == Evaluated(b, cfg, i, t, w, age).1
    ensures FullAlike(Evaluated(a, cfg, i, t, w, age).0, Evaluated(b, cfg, i, t, w, age).0, cfg, t.ts)
  {
    hide Times, Solvency, SumSpent, PrunedTs, PrunedSpend, Intent.Notional, Floor, Wallet.EquityAt;
    var first := t.ts - cfg.windowSteps;
    assert FullAt(a, b, cfg, first);
    var a', b' := Evaluated(a, cfg, i, t, w, age).0, Evaluated(b, cfg, i, t, w, age).0;
    forall c | c >= first ensures FullAt(a', b', cfg, c) {
      assert FullAt(a, b, cfg, c);
      PruningTwice(a.recent, first, c);
      PruningTwice(b.recent, first, c);
    }
  }

  lemma PruningTwice(ts: seq<int>, first: int, c: int)
    requires first <= c
    ensures PrunedTs(PrunedTs(ts, first), c) == PrunedTs(ts, c)
  {
    PrunedAgain(ts, Itself, first, c);
  }

  lemma FullAlikeRegisters(a: Engine, b: Engine, cfg: Config, now: int, ts: int, notional: real)
    requires FullAlike(a, b, cfg, now) && now <= ts
    ensures FullAlike(Registered(a, ts, notional), Registered(b, ts, notional), cfg, ts)
  {
    hide Pruned;
    var a', b' := Registered(a, ts, notional), Registered(b, ts, notional);
    forall c | c >= ts - cfg.windowSteps ensures FullAt(a', b', cfg, c) {
      assert FullAt(a, b, cfg, c);
      PrunedAppend(a.recent, Itself, c, ts);
      PrunedAppend(b.recent, Itself, c, ts);
    }
  }

  lemma {:induction false} FullAlikeForever(a: Engine, b: Engine, cfg: Config, now: int, calls: seq<Call>)
    requires FullAlike(a, b, cfg, now) && InTimeOrder(calls, now) && cfg.maxNotionalPerWindow.None?
    ensures FullAlike(AfterCalls(a, cfg, calls), AfterCalls(b, cfg, calls), cfg, TimeAfter(calls, now))
  {
    hide FullAlike, Evaluated, Registered;
    if calls != [] {
      var before, c := calls[..|calls| - 1], calls[|calls| - 1];
      FullAlikeForever(a, b, cfg, now, before);
      var a', b', last := AfterCalls(a, cfg, before), AfterCalls(b, cfg, before), TimeAfter(before, now);
      match c {
        case Evaluate(j, u, v, g) => FullAlikeRules(a', b', cfg, last, j, u, v, g);
        case Register(ts, n) => FullAlikeRegisters(a', b', cfg, last, ts, n);
      }
    }
  }

  // ---- engines that never come to the windows ----------------------------------------------------------

  /** Some intent gets as far as the windows. */
  ghost predicate Reaches(cfg: Config, tripped: bool) {
    && !cfg.killSwitch && !tripped && cfg.allowedSymbols != {}
    && (cfg.minNotionalPerTx.Some? ==> cfg.maxNotionalPerTx >= cfg.minNotionalPerTx.value - TINY)
  }

  ghost predicate Blocked(a: Engine, b: Engine, cfg: Config) {
    a.starting == b.starting && a.tripped == b.tripped && !Reaches(cfg, a.tripped)
  }

  lemma BlockedRules(a: Engine, b: Engine, cfg: Config, i: Intent, t: Tick, w: Wallet, age: Option<int>)
    requires Blocked(a, b, cfg)
    ensures Evaluated(a, cfg, i, t, w, age).1 == Evaluated(b, cfg, i, t, w, age).1
    ensures Blocked(Evaluated(a, cfg, i, t, w, age).0, Evaluated(b, cfg, i, t, w, age).0, cfg)
  {
    hide Times, Windowed, Floor, Wallet.EquityAt, Intent.Notional;
  }

  lemma {:induction false} BlockedForever(a: Engine, b: Engine, cfg: Config, calls: seq<Call>)
    requires Blocked(a, b, cfg)
    ensures Blocked(AfterCalls(a, cfg, calls), AfterCalls(b, cfg, calls), cfg)
  {
    hide Evaluated, Reaches;
    if calls != [] {
      var before, c := calls[..|calls| - 1], calls[|calls| - 1];
      BlockedForever(a, b, cfg, before);
      if c.Evaluate? {
        BlockedRules(AfterCalls(a, cfg, before), AfterCalls(b, cfg, before), cfg, c.i, c.t, c.w, c.age);
      }
    }
  }

  // ---- telling two engines apart -----------------------------------------------------------------------

  function Padding(ts: int, n: nat): seq<Call> {
    if n == 0 then [] else Padding(ts, n - 1) + [Register(ts, 0.0)]
  }

  lemma {:induction false} Padded(e: Engine, cfg: Config, now: int, ts: int, n: nat, c: int)
    requires now <= ts && c < ts
    ensures InTimeOrder(Padding(ts, n), now) && TimeAfter(Padding(ts, n), now) <= ts
    ensures var after := AfterCalls(e, cfg, Padding(ts, n));
      && after.starting == e.starting && after.tripped == e.tripped
      && |PrunedTs(after.recent, c)| == |PrunedTs(e.recent, c)| + n
  {
    hide Pruned;
    if n > 0 {
      Padded(e, cfg, now, ts, n - 1, c);
      var before := Padding(ts, n - 1);
      assert (before + [Register(ts, 0.0)])[..|before|] == before;
      PrunedAppend(AfterCalls(e, cfg, before).recent, Itself, c, ts);
    }
  }

  /** An intent that gets to the windows of both engines. */
  lemma Passes(e: Engine, cfg: Config, symbol: string, ts: int) returns (i: Intent, t: Tick, w: Wallet)
    requires Reaches(cfg, e.tripped) && symbol in cfg.allowedSymbols
    ensures t.ts == ts
    ensures forall f: Engine :: f.starting == e.starting && f.tripped == e.tripped ==>
              && EarlyDenial(Anchored(f, t, w), cfg, i, t, w, None) == ALLOW
              && Anchored(f, t, w).recent == f.recent
  {
    var need := if e.starting.Some? then Floor(e.starting.value, cfg) else 0.0;
    i, t := Intent(symbol, BUY, 1.0, None), Tick(symbol, cfg.maxNotionalPerTx, ts);
    w := Wallet(Max(need, 0.0), map[]);
    assert i.Notional(t.price) == cfg.maxNotionalPerTx by {
      OneTimes(t.price);
    }
    assert w.EquityAt(symbol, t.price) == Max(need, 0.0) by {
      NoneTimes(t.price);
    }
    assert Floor(0.0, cfg) == 0.0 by {
      NoneTimes(1.0 - cfg.maxDrawdownPct);
    }
  }

  lemma OneTimes(x: real)
    ensures Times(Abs(1.0), x) == x
  {
  }

  lemma NoneTimes(x: real)
    ensures Times(0.0, x) == 0.0
  {
  }

  /** At some later time one engine has room where the other has none. */
  lemma ToldApart(a: Engine, b: Engine, cfg: Config, now: int, c: int)
    requires Reaches(cfg, a.tripped) && a.starting == b.starting && a.tripped == b.tripped
    requires now - cfg.windowSteps <= c && 0 < cfg.windowSteps
    requires |PrunedTs(a.recent, c)| < cfg.maxTxPerWindow && |PrunedTs(a.recent, c)| < |PrunedTs(b.recent, c)|
    ensures !RuleAlike(a, b, cfg, now)
  {
    hide PrunedTs, Solvency, InTimeOrder, AfterCalls, EarlyDenial, Anchored;
    var ts, n := c + cfg.windowSteps, cfg.maxTxPerWindow - 1 - |PrunedTs(a.recent, c)|;
    var symbol :| symbol in cfg.allowedSymbols;
    Padded(a, cfg, now, ts, n, c);
    Padded(b, cfg, now, ts, n, c);
    var i, t, w := Passes(a, cfg, symbol, ts);
    var a', b' := AfterCalls(a, cfg, Padding(ts, n)), AfterCalls(b, cfg, Padding(ts, n));
    assert Evaluated(b', cfg, i, t, w, None).1 == RATE_LIMIT;
    assert Evaluated(a', cfg, i, t, w, None).1 != RATE_LIMIT by {
      SolvencyIsLast(cfg, i, t, w);
    }
    assert !Agree(a, b, cfg, Padding(ts, n), i, t, w, None);
  }

  lemma SolvencyIsLast(cfg: Config, i: Intent, t: Tick, w: Wallet)
    ensures Solvency(cfg, i, t, w) != RATE_LIMIT
  {
  }

  // ---- exactly when a torn fill matters --------------------------------------------------------------------

  /** Since each torn fill in the window so many kept ones have filled that the limit is reached
      without it. */
  ghost predicate Outweighed(h: seq<Entry>, cfg: Config, now: int) {
    var torn := Torn(h);
    forall k :: 0 <= k < |torn| && torn[k].fill.ts > now - cfg.windowSteps ==>
      |Since(Kept(h), torn[k].fill.ts - 1)| >= cfg.maxTxPerWindow
  }

  lemma {:induction false} SinceShrinks(deals: seq<Deal>, lo: int, later: int)
    requires lo <= later
    ensures |Since(deals, later)| <= |Since(deals, lo)|
  {
    if deals != [] {
      SinceShrinks(deals[..|deals| - 1], lo, later);
    }
  }

  lemma {:induction false} OneSince(deals: seq<Deal>, lo: int)
    ensures Since(deals, lo) != [] <==> exists k :: 0 <= k < |deals| && deals[k].fill.ts > lo
  {
    if deals != [] {
      var init := deals[..|deals| - 1];
      OneSince(init, lo);
      if k :| 0 <= k < |deals| && deals[k].fill.ts > lo {
        assert k < |init| ==> init[k] == deals[k];
      }
    }
  }

  lemma {:induction false} TornAreOver(h: seq<Entry>, now: int)
    requires Increasing(Every(h)) && (h != [] ==> h[|h| - 1].deal.fill.ts <= now)
    ensures forall k :: 0 <= k < |Torn(h)| ==> Torn(h)[k].fill.ts <= now
  {
    if h != [] {
      var init, d := h[..|h| - 1], h[|h| - 1].deal;
      assert (Every(init) + [d])[..|Every(init)|] == Every(init);
      LastOfEvery(init);
      TornAreOver(init, now);
    }
  }

  /** The window from a cutoff on, as the engine has it and as the whole ledger has it. */
  lemma WindowsAt(r: Setup, l: Life, now: int, c: int)
    requires Steady(r, l.s, now) && Booked(r, l, now) && c >= now - r.cfg.windowSteps
    ensures var e := l.s.engine;
      var full, kept, torn := Unpruned(e, Every(l.history)), Since(Kept(l.history), c), Since(Torn(l.history), c);
      && |PrunedTs(e.recent, c)| == |kept| && |PrunedTs(full.recent, c)| == |kept| + |torn|
      && (torn == [] ==> PrunedTs(e.recent, c) == PrunedTs(full.recent, c))
  {
    hide Steady, Increasing, AllCleared, EachCleared, Every, Kept, Torn, Since, Pruned, Entries, Cleared, Fills;
    SteadyMeans(r, l.s, now);
    var h, e := l.history, l.s.engine;
    assert PrunedTs(e.recent, c) == PrunedTs(Entries(Kept(h), FillTime), c);
    PrunedIsSince(Kept(h), FillTime, Itself, c);
    PrunedIsSince(Every(h), FillTime, Itself, c);
    EntriesLength(Since(Kept(h), c), FillTime);
    EntriesLength(Since(Every(h), c), FillTime);
    SinceEvery(h, c);
  }

  lemma OutweighedIsFull(r: Setup, l: Life, now: int)
    requires Steady(r, l.s, now) && Booked(r, l, now) && Outweighed(l.history, r.cfg, now)
    ensures FullAlike(l.s.engine, Unpruned(l.s.engine, Every(l.history)), r.cfg, now)
  {
    hide Steady, Booked, Every, Kept, Torn, Since, PrunedTs;
    var e, full, torn := l.s.engine, Unpruned(l.s.engine, Every(l.history)), Torn(l.history);
    forall c | c >= now - r.cfg.windowSteps ensures FullAt(e, full, r.cfg, c) {
      WindowsAt(r, l, now, c);
      OneSince(torn, c);
      if Since(torn, c) != [] {
        var k :| 0 <= k < |torn| && torn[k].fill.ts > c;
        SinceShrinks(Kept(l.history), c, torn[k].fill.ts - 1);
      }
    }
  }

  lemma NotOutweighedIsSeen(r: Setup, l: Life, now: int)
    requires Steady(r, l.s, now) && Booked(r, l, now) && !Outweighed(l.history, r.cfg, now)
    requires Reaches(r.cfg, l.s.engine.tripped)
    ensures !RuleAlike(l.s.engine, Unpruned(l.s.engine, Every(l.history)), r.cfg, now)
  {
    hide Steady, Every, Kept, Torn, Since, PrunedTs, Reaches, RuleAlike, EachCleared, Increasing, Fills;
    var torn := Torn(l.history);
    var k :| 0 <= k < |torn| && torn[k].fill.ts > now - r.cfg.windowSteps
             && |Since(Kept(l.history), torn[k].fill.ts - 1)| < r.cfg.maxTxPerWindow;
    var c := torn[k].fill.ts - 1;
    TornAreOver(l.history, now);
    WindowsAt(r, l, now, c);
    OneSince(torn, c);
    ToldApart(l.s.engine, Unpruned(l.s.engine, Every(l.history)), r.cfg, now, c);
  }

  /** Without a spend budget, after any life: the engine rules for ever as one that knows every
      fill in the ledger exactly when no intent gets as far as the windows, or each torn fill
      still in the window is outweighed.  Otherwise some later intent meets no rate limit where
      the other would deny it by that rule. */
  lemma RulesFullIff(r: Setup, w: Wallet, hs: seq<Happening>, start: int)
    requires r.journaled && TimedLife(hs, start) && r.cfg.maxNotionalPerWindow.None?
    ensures var l, now := Lived(r, w, hs), NowIn(hs, start);
      RuleAlike(l.s.engine, Unpruned(l.s.engine, Every(l.history)), r.cfg, now)
      <==> !Reaches(r.cfg, l.s.engine.tripped) || Outweighed(l.history, r.cfg, now)
  {
    hide Lived, TimedLife, Steady, Booked, Every, Reaches, Outweighed, FullAlike, Evaluated, AfterCalls, InTimeOrder,
         Entries, Fills;
    LifeIsSteady(r, w, hs, start);
    var l, now := Lived(r, w, hs), NowIn(hs, start);
    var e, full := l.s.engine, Unpruned(l.s.engine, Every(l.history));
    if Reaches(r.cfg, e.tripped) && !Outweighed(l.history, r.cfg, now) {
      NotOutweighedIsSeen(r, l, now);
    } else {
      if Reaches(r.cfg, e.tripped) {
        OutweighedIsFull(r, l, now);
      }
      forall calls: seq<Call>, i: Intent, t: Tick, v: Wallet, age: Option<int>
        | InTimeOrder(calls, now) && t.ts >= TimeAfter(calls, now)
        ensures Agree(e, full, r.cfg, calls, i, t, v, age)
      {
        if Reaches(r.cfg, e.tripped) {
          FullAlikeForever(e, full, r.cfg, now, calls);
          FullAlikeRules(AfterCalls(e, r.cfg, calls), AfterCalls(full, r.cfg, calls), r.cfg, TimeAfter(calls, now), i,
                         t, v, age);
        } else {
          BlockedForever(e, full, r.cfg, calls);
          BlockedRules(AfterCalls(e, r.cfg, calls), AfterCalls(full, r.cfg, calls), r.cfg, i, t, v, age);
        }
      }
    }
  }
}
