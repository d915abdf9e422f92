/** The windows over a runner's whole life.  Here the ticks come in time order, across
    restarts too; RunnerLosses has a life in which they do not. */
module CrashWindows {
  import opened Wrappers
  import opened Trading
  import opened Policy
  import opened Runner
  import opened RunnerWindows
  import opened RunnerSafety
  import opened RunnerCrashes

  // ---- the clock -----------------------------------------------------------------------------------

  function NowIn(hs: seq<Happening>, start: int): int {
    if hs == [] then start
    else match hs[|hs| - 1]
      case CrashedBetween => NowIn(hs[..|hs| - 1], start)
      case _ => hs[|hs| - 1].m.tick.ts
  }

  /** Ticks come in time order through all of it. */
  ghost predicate TimedLife(hs: seq<Happening>, start: int) {
    hs != [] ==>
      && TimedLife(hs[..|hs| - 1], start)
      && (!hs[|hs| - 1].CrashedBetween? ==> NowIn(hs[..|hs| - 1], start) < NowIn(hs, start))
  }

  /** The happening takes the time from now to later. */
  ghost predicate Takes(h: Happening, now: int, later: int) {
    match h
    case CrashedBetween => now == later
    case _ => now < h.m.tick.ts == later
  }

  // ---- what holds after every happening ---------------------------------------------------------------

  lemma DecidedFillIsCleared(r: Setup, s: State, m: Moment, now: int)
    requires r.delay <= 0 && Steady(r, s, now) && now < m.tick.ts && m.proposal.Some?
    requires Ruled(r, Opened(r, s, m.tick), m.tick, m.proposal.value).1 == ALLOW
    ensures Cleared(s.deals, Decision(m.proposal.value, m.tick), r.cfg)
  {
    hide Alike, Cleared, Increasing, AllCleared, Settled, Durable;
    SteadyMeans(r, s, now);
    AllowClears(r, s, m.proposal.value, m.tick, now);
  }

  ghost predicate Steady(r: Setup, s: State, now: int) {
    && Sound(r, s, now) && Durable(r, s, now) && AnchoredBefore(s) && Latched(r, s) && Prompt(r, s)
  }

  /** Each fill, kept or torn, was cleared against all the kept ones before it. */
  ghost predicate EachCleared(h: seq<Entry>, cfg: Config) {
    h != [] ==>
      var init, d := h[..|h| - 1], h[|h| - 1].deal;
      EachCleared(init, cfg) && Cleared(Kept(init), d.decision, cfg) && d.decision.tick.ts <= d.fill.ts
  }

  /** The deals the engine and the wallet know are the kept ones; the ledger has them all. */
  ghost predicate Booked(r: Setup, l: Life, now: int) {
    && l.s.deals == Kept(l.history) && l.s.ledger == Fills(Every(l.history))
    && Increasing(Every(l.history)) && EachCleared(l.history, r.cfg)
    && (l.history != [] ==> l.history[|l.history| - 1].deal.fill.ts <= now)
  }

  lemma AlikeUnpruned(a: Engine, b: Engine, deals: seq<Deal>, cfg: Config, now: int)
    requires Alike(a, b, cfg, now) && Alike(b, Unpruned(b, deals), cfg, now)
    ensures Alike(a, Unpruned(a, deals), cfg, now)
  {
  }

  /** A restart keeps the windows too. */
  lemma RestartIsSteady(r: Setup, s: State, now: int)
    requires Sound(r, s, now) && Durable(r, s, now) && AnchoredBefore(s)
    ensures Steady(r, Restarted(s), now)
  {
    hide Alike, SnapshotOf, FromSnapshot, Increasing, AllCleared, Cleared, Fills, Entries;
    SnapshotAgain(s.wallet);
    if s.saved == [] {
      FreshLooksUnpruned(r, now);
    } else {
      var c := s.saved[|s.saved| - 1];
      AlikeMeans(c.engine, s.engine, r.cfg, now);
      AlikeUnpruned(c.engine, s.engine, s.deals, r.cfg, now);
      AlikeRefl(c.engine, r.cfg, now);
    }
  }

  lemma AlikeMeans(a: Engine, b: Engine, cfg: Config, now: int)
    requires Alike(a, b, cfg, now)
    ensures a.starting == b.starting && a.tripped == b.tripped
  {
  }

  lemma FreshLooksUnpruned(r: Setup, now: int)
    ensures Alike(NEW_ENGINE, Unpruned(NEW_ENGINE, []), r.cfg, now)
  {
  }

  lemma TickIsSteady(r: Setup, s: State, m: Moment, now: int)
    requires r.journaled && Steady(r, s, now) && now < m.tick.ts
    ensures Steady(r, Stepped(r, s, m), m.tick.ts)
  {
    hide Sound, Durable, Opened, Decided;
    OpeningIsSteady(r, s, m.tick, now);
    DealsAreOver(r, s, now);
    var settled := Opened(r, s, m.tick);
    if s.pending.Some? {
      SettlingKeepsLatch(r, s.(pending := None), s.pending.value, m.tick);
    }
    DecidingIsSound(r, settled, m);
    DecidingIsDurable(r, settled, m);
    DecidingLatches(r, settled, m);
    DecidingAnchors(r, settled, m);
  }

  lemma OpeningIsSteady(r: Setup, s: State, t: Tick, now: int)
    requires r.journaled && Steady(r, s, now) && now < t.ts
    ensures var settled := Opened(r, s, t);
      && Steady(r, settled, t.ts) && settled.pending.None?
      && settled.engine.starting == s.engine.starting && settled.engine.tripped == s.engine.tripped
    ensures s.pending.None? ==> Opened(r, s, t) == s
    ensures Opened(r, s, t)
         == if s.pending.Some? then Settled(r, s.(pending := None), s.pending.value, t) else s
  {
    hide Sound, Durable, Settled;
    OpeningIsSound(r, s, t, now);
    OpeningIsDurable(r, s, t, now);
    OpenedIs(r, s, t);
    if s.pending.Some? {
      SettlingKeepsLatch(r, s.(pending := None), s.pending.value, t);
    }
  }

  lemma DecidingAnchors(r: Setup, s: State, m: Moment)
    requires AnchoredBefore(s) && s.pending.None?
    ensures AnchoredBefore(Decided(r, s, m))
  {
    hide Settled, Ruled, SnapshotOf;
    if m.proposal.Some? {
      RulingLatches(r, s, m.tick, m.proposal.value);
      RulingOnlyRules(r, s, m.tick, m.proposal.value);
      SettlingKeepsLatch(r, Ruled(r, s, m.tick, m.proposal.value).0, Decision(m.proposal.value, m.tick), m.tick);
    }
  }

  lemma SteadyLater(r: Setup, s: State, now: int, later: int)
    requires Steady(r, s, now) && now <= later
    ensures Steady(r, s, later)
  {
    hide Alike, Increasing, AllCleared, Cleared;
    AlikeLater(s.engine, Unpruned(s.engine, s.deals), r.cfg, now, later);
    if s.saved != [] {
      AlikeLater(s.saved[|s.saved| - 1].engine, s.engine, r.cfg, now, later);
    }
  }

  lemma SteadyMeans(r: Setup, s: State, now: int)
    requires Steady(r, s, now)
    ensures Sound(r, s, now) && Durable(r, s, now) && AnchoredBefore(s) && Latched(r, s)
    ensures Increasing(s.deals) && AllCleared(s.deals, r.cfg)
    ensures Alike(s.engine, Unpruned(s.engine, s.deals), r.cfg, now)
    ensures Prompt(r, s)
    ensures s.pending.Some? ==> s.pending.value.tick.ts <= now && Cleared(s.deals, s.pending.value, r.cfg)
  {
    hide Alike, Cleared;
  }

  lemma SteadyIsGuarded(r: Setup, s: State, now: int)
    requires Steady(r, s, now)
    ensures Guarded(r, s)
  {
    hide Alike, Increasing, AllCleared, Cleared, SnapshotOf;
    if s.saved != [] {
      AlikeMeans(s.saved[|s.saved| - 1].engine, s.engine, r.cfg, now);
    }
  }

  /** Whatever the process had written when it died, it restarts steady. */
  lemma DeathIsSteady(r: Setup, s: State, m: Moment, k: nat, now: int)
    requires r.journaled && Steady(r, s, now) && now < m.tick.ts
    ensures Steady(r, LastWhole(r, s, m, k), m.tick.ts) && Steady(r, Restarted(OnDisk(r, s, m, k)), m.tick.ts)
  {
    hide Stepped, Opened, TickWrites, OpenWrites, Steady, Restarted, Sound, Durable, Fills, EntriesOf;
    var whole := LastWhole(r, s, m, k);
    SteadyLater(r, s, now, m.tick.ts);
    OpeningIsSteady(r, s, m.tick, now);
    TickIsSteady(r, s, m, now);
    SteadyWithLedger(r, whole, OnDisk(r, s, m, k).ledger, m.tick.ts);
    RestartIsSteady(r, OnDisk(r, s, m, k), m.tick.ts);
  }

  lemma SteadyWithLedger(r: Setup, s: State, ledger: seq<Fill>, now: int)
    requires Steady(r, s, now)
    ensures var t := s.(ledger := ledger);
      Steady(r, t, now) && Sound(r, t, now) && Durable(r, t, now) && AnchoredBefore(t)
  {
    hide Alike, Increasing, AllCleared, Cleared;
  }

  lemma HappeningIsSteady(r: Setup, l: Life, h: Happening, now: int, later: int)
    requires r.journaled && Steady(r, l.s, now) && Takes(h, now, later)
    ensures Steady(r, Happened(r, l, h).s, later)
  {
    hide Stepped, OnDisk, Restarted, Steady, EntriesOf, TickWrites;
    match h {
      case Ticked(m) => TickIsSteady(r, l.s, m, now);
      case CrashedBetween =>
        SteadyMeans(r, l.s, now);
        RestartIsSteady(r, l.s, now);
      case Died(m, k) => DeathIsSteady(r, l.s, m, k, now);
    }
  }

  // ---- the books over lives -----------------------------------------------------------------------------

  lemma {:induction false} BookMore(r: Setup, l: Life, after: State, more: seq<Entry>, now: int, later: int)
    requires Booked(r, l, now) && now < later
    requires after.deals == l.s.deals + Kept(more) && after.ledger == l.s.ledger + Fills(Every(more))
    requires |more| <= 1
    requires more != [] ==>
               && more[0].deal.fill.ts == later && more[0].deal.decision.tick.ts <= later
               && Cleared(l.s.deals, more[0].deal.decision, r.cfg)
    ensures Booked(r, Life(after, l.history + more), later)
  {
    hide Cleared, Kept, Every, Fills, Increasing, EachCleared;
    var h := l.history;
    if more == [] {
      NothingWritten();
      assert h + more == h;
    } else {
      assert more == [more[0]];
      OneEntry(more[0]);
      NextEntry(h, more[0], r.cfg);
    }
  }

  /** The books of a history grow by one entry. */
  lemma {:induction false} NextEntry(h: seq<Entry>, e: Entry, cfg: Config)
    requires Increasing(Every(h)) && (h != [] ==> h[|h| - 1].deal.fill.ts < e.deal.fill.ts)
    requires EachCleared(h, cfg) && Cleared(Kept(h), e.deal.decision, cfg) && e.deal.decision.tick.ts <= e.deal.fill.ts
    ensures Every(h + [e]) == Every(h) + [e.deal] && Fills(Every(h + [e])) == Fills(Every(h)) + [e.deal.fill]
    ensures Kept(h + [e]) == Kept(h) + if e.kept then [e.deal] else []
    ensures Increasing(Every(h + [e])) && EachCleared(h + [e], cfg)
  {
    hide Cleared;
    assert (h + [e])[..|h|] == h;
    assert (Every(h) + [e.deal])[..|Every(h)|] == Every(h);
    LastOfEvery(h);
  }

  lemma {:induction false} LastOfEvery(h: seq<Entry>)
    ensures |Every(h)| >= |h| && (h == [] ==> Every(h) == [])
    ensures h != [] ==> Every(h) != [] && Every(h)[|Every(h)| - 1] == h[|h| - 1].deal
  {
    if h != [] {
      LastOfEvery(h[..|h| - 1]);
    }
  }

  /** The fill a tick writes was cleared against every kept fill before it. */
  lemma WrittenFillIsCleared(r: Setup, s: State, m: Moment, now: int)
    requires r.journaled && Steady(r, s, now) && now < m.tick.ts
    ensures var ws := TickWrites(r, s, m);
      ws != [] && ws[0].Append? ==>
        && Cleared(s.deals, ws[0].deal.decision, r.cfg)
        && ws[0].deal.decision.tick.ts <= ws[0].deal.fill.ts == m.tick.ts
  {
    hide TickWrites, OpenWrites, Steady, Cleared, Stepped, Saves, EntriesOf, Ruled, Opened;
    SteadyMeans(r, s, now);
    TickWritesAre(r, s, m);
    var ws := TickWrites(r, s, m);
    if ws != [] && ws[0].Append? && OpenWrites(r, s, m.tick) == [] {
      DecidedFillIsCleared(r, s, m, now);
    }
  }

  lemma DeathIsBooked(r: Setup, l: Life, m: Moment, k: nat, now: int)
    requires r.journaled && Steady(r, l.s, now) && Booked(r, l, now) && now < m.tick.ts
    ensures Booked(r, Happened(r, l, Died(m, k)), m.tick.ts)
  {
    hide Stepped, Steady, TickWrites, OpenWrites, Cleared, Booked, Restarted, LastWhole, Saves, FirstOf, EntriesOf,
         Guarded, Ruled;
    SteadyMeans(r, l.s, now);
    SteadyIsGuarded(r, l.s, now);
    TickWritesAre(r, l.s, m);
    WrittenFillIsCleared(r, l.s, m, now);
    LastWholeIs(r, l.s, m, k);
    EntriesOfFirst(TickWrites(r, l.s, m), k);
    DeathIsGuarded(r, l.s, m, k);
    BookMore(r, l, Restarted(OnDisk(r, l.s, m, k)), EntriesOf(FirstOf(TickWrites(r, l.s, m), k)), now, m.tick.ts);
  }

  lemma TickIsBooked(r: Setup, l: Life, m: Moment, now: int)
    requires r.journaled && Steady(r, l.s, now) && Booked(r, l, now) && now < m.tick.ts
    ensures Booked(r, Happened(r, l, Ticked(m)), m.tick.ts)
  {
    hide Stepped, Steady, TickWrites, OpenWrites, Cleared, Booked, Saves, EntriesOf, Ruled;
    var ws := TickWrites(r, l.s, m);
    SteadyMeans(r, l.s, now);
    TickWritesAre(r, l.s, m);
    WrittenFillIsCleared(r, l.s, m, now);
    EntriesOfFirst(ws, |ws| + 1);
    BookMore(r, l, Stepped(r, l.s, m), EntriesOf(ws), now, m.tick.ts);
  }

  lemma RestartIsBooked(r: Setup, l: Life, now: int)
    requires Booked(r, l, now)
    ensures Booked(r, Life(Restarted(l.s), l.history), now)
  {
    hide Increasing, EachCleared, FromSnapshot;
  }

  /** Through any ticks, crashes and restarts: the engine looks like one that never dropped a
      kept fill, each fill was cleared against those, and a restart would give it back. */
  lemma {:induction false} LifeIsSteady(r: Setup, w: Wallet, hs: seq<Happening>, start: int)
    requires r.journaled && TimedLife(hs, start)
    ensures Steady(r, Lived(r, w, hs).s, NowIn(hs, start)) && Booked(r, Lived(r, w, hs), NowIn(hs, start))
  {
    hide Steady, Stepped, Restarted, OnDisk, EntriesOf, Booked, TickWrites, FirstOf;
    if hs == [] {
      FreshIsSteady(r, w, start);
    } else {
      var init, h := hs[..|hs| - 1], hs[|hs| - 1];
      LifeIsSteady(r, w, init, start);
      var l, now := Lived(r, w, init), NowIn(init, start);
      HappeningIsSteady(r, l, h, now, NowIn(hs, start));
      match h {
        case Ticked(m) => TickIsBooked(r, l, m, now);
        case CrashedBetween => RestartIsBooked(r, l, now);
        case Died(m, k) => DeathIsBooked(r, l, m, k, now);
      }
    }
  }

  lemma FreshIsSteady(r: Setup, w: Wallet, start: int)
    ensures Steady(r, Fresh(NEW_ENGINE, w), start) && Booked(r, Life(Fresh(NEW_ENGINE, w), []), start)
  {
    hide Alike;
    FreshIsSound(r, w, start);
    FreshIsDurable(r, w, start);
  }

  // ---- the windows --------------------------------------------------------------------------------------

  lemma {:induction false} WithinSplits(h: seq<Entry>, lo: int, hi: int)
    ensures |Within(Every(h), lo, hi)| == |Within(Kept(h), lo, hi)| + |Within(Torn(h), lo, hi)|
  {
    if h != [] {
      var init, e := h[..|h| - 1], h[|h| - 1];
      WithinSplits(init, lo, hi);
      WithinNext(Every(init), e.deal, lo, hi);
      WithinNext(Kept(init), e.deal, lo, hi);
      WithinNext(Torn(init), e.deal, lo, hi);
      assert Kept(init) + [] == Kept(init) && Torn(init) + [] == Torn(init);
    }
  }

  lemma WithinNext(deals: seq<Deal>, d: Deal, lo: int, hi: int)
    ensures |Within(deals + [d], lo, hi)| == |Within(deals, lo, hi)| + if lo < d.fill.ts <= hi then 1 else 0
  {
    assert (deals + [d])[..|deals|] == deals;
  }

  /** In every window the ledger holds at most max_tx_per_window fills and the torn ones: one
      more for each crash between a fill's ledger line and its checkpoint, and for no other. */
  lemma RateLimitSurvives(r: Setup, w: Wallet, hs: seq<Happening>, start: int, hi: int)
    requires r.journaled && TimedLife(hs, start)
    ensures var l, lo := Lived(r, w, hs), hi - r.cfg.windowSteps;
      && l.s.ledger == Fills(Every(l.history))
      && |Within(Every(l.history), lo, hi)|
         <= (if r.cfg.maxTxPerWindow > 0 then r.cfg.maxTxPerWindow else 0) + |Within(Torn(l.history), lo, hi)|
  {
    hide Lived, Steady, Within, Increasing, AllCleared, EachCleared, TimedLife, Every, Kept, Torn, Fills;
    LifeIsSteady(r, w, hs, start);
    var l := Lived(r, w, hs);
    SteadyMeans(r, l.s, NowIn(hs, start));
    WindowCount(l.s.deals, r.cfg, hi);
    WithinSplits(l.history, hi - r.cfg.windowSteps, hi);
  }

  lemma {:induction false} RegistersSplit(h: seq<Entry>, lo: int)
    ensures Registers(Since(Every(h), lo)) == Registers(Since(Kept(h), lo)) + Registers(Since(Torn(h), lo))
  {
    hide Since, Registers, Fill.Gross;
    if h == [] {
      NothingRegistered(lo);
    } else {
      var init, e := h[..|h| - 1], h[|h| - 1];
      RegistersSplit(init, lo);
      RegistersSince(Every(init), e.deal, lo);
      RegistersSince(Kept(init), e.deal, lo);
      RegistersSince(Torn(init), e.deal, lo);
      assert Kept(init) + [] == Kept(init) && Torn(init) + [] == Torn(init);
    }
  }

  lemma NothingRegistered(lo: int)
    ensures Registers(Since([], lo)) == 0.0
  {
  }

  lemma RegistersSince(deals: seq<Deal>, d: Deal, lo: int)
    ensures Registers(Since(deals + [d], lo))
         == Registers(Since(deals, lo)) + if d.fill.ts > lo then d.fill.Gross() else 0.0
  {
    assert (deals + [d])[..|deals|] == deals;
    RegistersNext(Since(deals, lo), d);
    assert Since(deals, lo) + [] == Since(deals, lo);
  }

  lemma {:induction false} EachOne(h: seq<Entry>, cfg: Config, k: nat)
    requires k < |h| && EachCleared(h, cfg)
    ensures Cleared(Kept(h[..k]), h[k].deal.decision, cfg) && h[k].deal.decision.tick.ts <= h[k].deal.fill.ts
    decreases |h|
  {
    hide Cleared;
    if k < |h| - 1 {
      EachOne(h[..|h| - 1], cfg, k);
      assert h[..|h| - 1][..k] == h[..k];
    }
  }

  /** For every fill in the ledger, torn or not, and every spend window that ends at it or
      later: the earlier fills in the window, and that fill at its decision price, come to
      at most the budget and what the torn ones among the earlier fills came to. */
  lemma SpendBudgetSurvives(r: Setup, w: Wallet, hs: seq<Happening>, start: int, k: nat, hi: int)
    requires r.journaled && TimedLife(hs, start) && r.cfg.maxNotionalPerWindow.Some?
    requires OrdinarySetup(r) && forall j :: 0 <= j < |hs| ==> OrdinaryHappening(r, hs[j])
    requires k < |Lived(r, w, hs).history| && Lived(r, w, hs).history[k].deal.fill.ts <= hi
    ensures var h, cfg := Lived(r, w, hs).history, r.cfg;
      var lo := hi - if cfg.spendWindowSteps.Some? then cfg.spendWindowSteps.value else cfg.windowSteps;
      Registers(Since(Every(h[..k]), lo)) + h[k].deal.decision.intent.Notional(h[k].deal.decision.tick.price)
      <= cfg.maxNotionalPerWindow.value + 0.000000001 + Registers(Since(Torn(h[..k]), lo))
  {
    hide Lived, Steady, Increasing, AllCleared, TimedLife, Registers, Since, Intent.Notional, OrdinaryHappening,
         OrdinarySetup,
         Every, Kept, Torn, EachCleared;
    LifeIsSteady(r, w, hs, start);
    var h, lo := Lived(r, w, hs).history, hi - r.cfg.SpendWindow();
    LifeIsTame(r, w, hs);
    EachOne(h, r.cfg, k);
    RegistersSplit(h[..k], lo);
    KeptIsTame(h[..k]);
    RegistersShrink(Kept(h[..k]), lo, h[k].deal.decision.tick.ts - r.cfg.SpendWindow());
  }

  // ---- when the history is full ---------------------------------------------------------------------------

  lemma {:induction false} SinceEvery(h: seq<Entry>, lo: int)
    ensures |Since(Every(h), lo)| == |Since(Kept(h), lo)| + |Since(Torn(h), lo)|
    ensures Since(Torn(h), lo) == [] ==> Since(Every(h), lo) == Since(Kept(h), lo)
  {
    if h != [] {
      var init, e := h[..|h| - 1], h[|h| - 1];
      SinceEvery(init, lo);
      SinceNext(Every(init), e.deal, lo);
      SinceNext(Kept(init), e.deal, lo);
      SinceNext(Torn(init), e.deal, lo);
      assert Kept(init) + [] == Kept(init) && Torn(init) + [] == Torn(init);
    }
  }

  lemma SinceNext(deals: seq<Deal>, d: Deal, lo: int)
    ensures Since(deals + [d], lo) == Since(deals, lo) + if d.fill.ts > lo then [d] else []
  {
    assert (deals + [d])[..|deals|] == deals;
  }

  lemma {:induction false} SinceLater(deals: seq<Deal>, lo: int, later: int)
    requires lo <= later && Since(deals, lo) == []
    ensures Since(deals, later) == []
  {
    if deals != [] {
      SinceLater(deals[..|deals| - 1], lo, later);
    }
  }

  /** The deques look from now on like those of an engine that knows every fill in the ledger. */
  ghost predicate LooksFull(r: Setup, l: Life, now: int) {
    Alike(l.s.engine, Unpruned(l.s.engine, Every(l.history)), r.cfg, now)
  }

  /** They do exactly when no torn fill is left in either window. */
  lemma LooksFullIff(r: Setup, w: Wallet, hs: seq<Happening>, start: int)
    requires r.journaled && TimedLife(hs, start)
    ensures var l, now := Lived(r, w, hs), NowIn(hs, start);
      LooksFull(r, l, now) <==>
        Since(Torn(l.history), now - r.cfg.windowSteps) == [] && Since(Torn(l.history), now - r.cfg.SpendWindow()) == []
  {
    hide Lived, Steady, Increasing, AllCleared, EachCleared, TimedLife, Every, Kept, Torn, Since, Pruned, Entries,
         Cleared, Fills;
    LifeIsSteady(r, w, hs, start);
    var l, now := Lived(r, w, hs), NowIn(hs, start);
    SteadyMeans(r, l.s, now);
    var h, e := l.history, l.s.engine;
    var lo, spendLo := now - r.cfg.windowSteps, now - r.cfg.SpendWindow();
    if LooksFull(r, l, now) {
      assert PrunedTs(e.recent, lo) == PrunedTs(Entries(Every(h), FillTime), lo)
          == PrunedTs(Entries(Kept(h), FillTime), lo);
      SameCount(h, FillTime, Itself, lo);
      assert PrunedSpend(e.spend, spendLo) == PrunedSpend(Entries(Every(h), FillSpent), spendLo)
          == PrunedSpend(Entries(Kept(h), FillSpent), spendLo);
      SameCount(h, FillSpent, TimeOf, spendLo);
    }
    if Since(Torn(h), lo) == [] && Since(Torn(h), spendLo) == [] {
      forall c | c >= lo ensures PrunedTs(e.recent, c) == PrunedTs(Entries(Every(h), FillTime), c) {
        assert PrunedTs(e.recent, c) == PrunedTs(Entries(Kept(h), FillTime), c);
        SameEntries(h, FillTime, Itself, lo, c);
      }
      forall c | c >= spendLo ensures PrunedSpend(e.spend, c) == PrunedSpend(Entries(Every(h), FillSpent), c) {
        assert PrunedSpend(e.spend, c) == PrunedSpend(Entries(Kept(h), FillSpent), c);
        SameEntries(h, FillSpent, TimeOf, spendLo, c);
      }
    }
  }

  lemma SameCount<T>(h: seq<Entry>, of: Deal -> T, at: T -> int, lo: int)
    requires Increasing(Every(h)) && Increasing(Kept(h)) && forall d :: at(of(d)) == d.fill.ts
    requires Pruned(Entries(Every(h), of), at, lo) == Pruned(Entries(Kept(h), of), at, lo)
    ensures Since(Torn(h), lo) == []
  {
    hide Pruned, Increasing, Every, Kept, Torn, Since, Entries;
    PrunedIsSince(Every(h), of, at, lo);
    PrunedIsSince(Kept(h), of, at, lo);
    EntriesLength(Since(Every(h), lo), of);
    EntriesLength(Since(Kept(h), lo), of);
    SinceEvery(h, lo);
  }

  lemma SameEntries<T>(h: seq<Entry>, of: Deal -> T, at: T -> int, lo: int, c: int)
    requires Increasing(Every(h)) && Increasing(Kept(h)) && forall d :: at(of(d)) == d.fill.ts
    requires Since(Torn(h), lo) == [] && lo <= c
    ensures Pruned(Entries(Every(h), of), at, c) == Pruned(Entries(Kept(h), of), at, c)
  {
    hide Pruned, Increasing, Every, Kept, Torn, Since, Entries;
    SinceLater(Torn(h), lo, c);
    SinceEvery(h, c);
    PrunedIsSince(Every(h), of, at, c);
    PrunedIsSince(Kept(h), of, at, c);
  }

  // ---- ordinary lives -------------------------------------------------------------------------------------

  ghost predicate OrdinarySetup(r: Setup) {
    MonotoneRounding(r.round6) && r.executor.feeRate >= 0.0 && 0.0 <= r.executor.slippageBps <= 10000.0
  }

  /** Positive prices on the rounding grid and positive amounts. */
  ghost predicate OrdinaryHappening(r: Setup, h: Happening) {
    match h
    case CrashedBetween => true
    case _ =>
      h.m.tick.price > 0.0 && r.round6(h.m.tick.price) == h.m.tick.price
      && (h.m.proposal.Some? ==> h.m.proposal.value.baseAmount > 0.0)
  }

  ghost predicate Tame(l: Life) {
    && NonnegativeFills(Every(l.history))
    && (l.s.pending.Some? ==> l.s.pending.value.intent.baseAmount > 0.0)
  }

  lemma {:induction false} KeptIsTame(h: seq<Entry>)
    requires NonnegativeFills(Every(h))
    ensures NonnegativeFills(Kept(h))
  {
    hide Fill.Gross;
    if h != [] {
      var init, d := h[..|h| - 1], h[|h| - 1].deal;
      assert Every(h)[|Every(init)|] == d;
      assert forall k :: 0 <= k < |Every(init)| ==> Every(init)[k] == Every(h)[k];
      KeptIsTame(init);
    }
  }

  lemma TameFills(r: Setup, d: Decision, t: Tick)
    requires OrdinarySetup(r) && d.intent.baseAmount > 0.0 && t.price > 0.0 && r.round6(t.price) == t.price
    ensures FillFor(r.executor, r.round6, d.intent, t).Gross() >= 0.0
  {
    hide FillFor, Fill.Gross;
    FillIsAdverse(r.executor, r.round6, d.intent, t);
  }

  lemma {:induction false} EveryConcat(a: seq<Entry>, b: seq<Entry>)
    ensures Every(a + b) == Every(a) + Every(b)
  {
    if b == [] {
      assert a + b == a && Every(a) + [] == Every(a);
    } else {
      var init, e := b[..|b| - 1], b[|b| - 1];
      assert (a + b)[..|a + b| - 1] == a + init && (a + b)[|a + b| - 1] == e;
      EveryConcat(a, init);
      assert Every(a) + (Every(init) + [e.deal]) == (Every(a) + Every(init)) + [e.deal];
    }
  }

  ghost predicate TameWrites(ws: seq<Write>) {
    forall i :: 0 <= i < |ws| && ws[i].Append? ==> ws[i].deal.fill.Gross() >= 0.0
  }

  lemma SettlingIsTame(r: Setup, s: State, d: Decision, t: Tick)
    requires r.journaled && OrdinarySetup(r) && d.intent.baseAmount > 0.0
    requires t.price > 0.0 && r.round6(t.price) == t.price
    ensures TameWrites(SettleWrites(r, s, d, t)) && Settled(r, s, d, t).pending == s.pending
  {
    hide OrdinarySetup, FillFor, Fill.Gross, Saves, EntriesOf, Settled, SettleWrites, Every, Kept, Fills;
    SettleWritesAre(r, s, d, t);
    TameFills(r, d, t);
  }

  lemma OpeningIsTame(r: Setup, l: Life, m: Moment)
    requires r.journaled && OrdinarySetup(r) && OrdinaryHappening(r, Ticked(m)) && Tame(l)
    ensures TameWrites(OpenWrites(r, l.s, m.tick)) && Opened(r, l.s, m.tick).pending.None?
  {
    hide OrdinarySetup, Fill.Gross, Settled, SettleWrites, NonnegativeFills;
    if l.s.pending.Some? {
      SettlingIsTame(r, l.s.(pending := None), l.s.pending.value, m.tick);
    }
  }

  lemma DecidingIsTame(r: Setup, s: State, m: Moment)
    requires r.journaled && OrdinarySetup(r) && OrdinaryHappening(r, Ticked(m)) && s.pending.None?
    ensures TameWrites(DecideWrites(r, s, m))
    ensures var p := Decided(r, s, m).pending; p.Some? ==> p.value.intent.baseAmount > 0.0
  {
    hide OrdinarySetup, Fill.Gross, Settled, SettleWrites, Ruled, SnapshotOf;
    if m.proposal.Some? {
      RulingOnlyRules(r, s, m.tick, m.proposal.value);
      SettlingIsTame(r, Ruled(r, s, m.tick, m.proposal.value).0, Decision(m.proposal.value, m.tick), m.tick);
    }
  }

  /** The fill a tick writes, and the intent it leaves pending. */
  lemma TickIsTame(r: Setup, l: Life, m: Moment)
    requires r.journaled && OrdinarySetup(r) && OrdinaryHappening(r, Ticked(m)) && Tame(l)
    ensures TameWrites(TickWrites(r, l.s, m))
    ensures var p := Stepped(r, l.s, m).pending; p.Some? ==> p.value.intent.baseAmount > 0.0
  {
    hide OrdinarySetup, OrdinaryHappening, Tame, Fill.Gross, OpenWrites, DecideWrites, Opened, Decided;
    OpeningIsTame(r, l, m);
    DecidingIsTame(r, Opened(r, l.s, m.tick), m);
  }

  lemma {:induction false} TameEntries(ws: seq<Write>)
    requires TameWrites(ws)
    ensures forall i :: 0 <= i < |EntriesOf(ws)| ==> EntriesOf(ws)[i].deal.fill.Gross() >= 0.0
  {
    hide Fill.Gross;
    if ws != [] {
      TameEntries(ws[1..]);
    }
  }

  lemma {:induction false} TameEvery(h: seq<Entry>)
    requires forall i :: 0 <= i < |h| ==> h[i].deal.fill.Gross() >= 0.0
    ensures NonnegativeFills(Every(h))
  {
    hide Fill.Gross;
    if h != [] {
      TameEvery(h[..|h| - 1]);
    }
  }

  lemma HappeningIsTame(r: Setup, l: Life, h: Happening)
    requires r.journaled && OrdinarySetup(r) && OrdinaryHappening(r, h) && Tame(l)
    ensures Tame(Happened(r, l, h))
  {
    hide Stepped, LastWhole, FromSnapshot, NonnegativeFills, OrdinarySetup, TickWrites, EntriesOf, Every, Fill.Gross,
         Fills;
    if !h.CrashedBetween? {
      TickIsTame(r, l, h.m);
      var ws := TickWrites(r, l.s, h.m);
      var first := if h.Died? then FirstOf(ws, h.k) else ws;
      TameEntries(first);
      TameEvery(EntriesOf(first));
      EveryConcat(l.history, EntriesOf(first));
      TameConcat(Every(l.history), Every(EntriesOf(first)));
    }
  }

  lemma TameConcat(a: seq<Deal>, b: seq<Deal>)
    requires NonnegativeFills(a) && NonnegativeFills(b)
    ensures NonnegativeFills(a + b)
  {
  }

  lemma {:induction false} LifeIsTame(r: Setup, w: Wallet, hs: seq<Happening>)
    requires r.journaled && OrdinarySetup(r) && forall j :: 0 <= j < |hs| ==> OrdinaryHappening(r, hs[j])
    ensures Tame(Lived(r, w, hs))
    ensures forall k :: 0 <= k <= |Lived(r, w, hs).history| ==> NonnegativeFills(Every(Lived(r, w, hs).history[..k]))
  {
    hide Happened, OrdinarySetup, OrdinaryHappening, Every, NonnegativeFills;
    if hs == [] {
      NothingIsTame(r, w);
    } else {
      LifeIsTame(r, w, hs[..|hs| - 1]);
      HappeningIsTame(r, Lived(r, w, hs[..|hs| - 1]), hs[|hs| - 1]);
    }
    var h := Lived(r, w, hs).history;
    forall k | 0 <= k <= |h| ensures NonnegativeFills(Every(h[..k])) {
      assert h[..k] + h[k..] == h;
      EveryConcat(h[..k], h[k..]);
      TamePrefix(Every(h[..k]), Every(h[k..]));
    }
  }

  lemma NothingIsTame(r: Setup, w: Wallet)
    ensures Tame(Lived(r, w, []))
  {
  }

  lemma TamePrefix(a: seq<Deal>, b: seq<Deal>)
    requires NonnegativeFills(a + b)
    ensures NonnegativeFills(a)
  {
    assert forall k :: 0 <= k < |a| ==> (a + b)[k] == a[k];
  }
}
