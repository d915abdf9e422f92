/** treasuryforge/policy.py: the guard in front of every execution. */
module Policy {
  import opened Sums
  import opened Wrappers
  import opened Trading

  datatype Config = Config(
    allowedSymbols: set<string>,
    maxNotionalPerTx: real,
    maxTxPerWindow: int,
    windowSteps: int,
    maxDrawdownPct: real,
    feeRate: real,
    killSwitch: bool,
    minNotionalPerTx: Option<real>,
    maxNotionalPerWindow: Option<real>,
    spendWindowSteps: Option<int>,
    maxStalenessNs: Option<int>)
  {
    function SpendWindow(): int {
      if spendWindowSteps.Some? then spendWindowSteps.value else windowSteps
    }
  }

  /** ALLOW, or the rule that denied. */
  datatype Verdict = ALLOW | KILL_SWITCH | CIRCUIT_BREAKER | STALE_DATA | SYMBOL | CAP | MIN_NOTIONAL
                   | RATE_LIMIT | SPEND_BUDGET | INSUFFICIENT_QUOTE | INSUFFICIENT_BASE

  datatype Spent = Spent(ts: int, notional: real)

  /** The latched state. */
  datatype Engine = Engine(starting: Option<real>, tripped: bool, recent: seq<int>, spend: seq<Spent>)

  const NEW_ENGINE := Engine(None, false, [], [])

  /** What is left of a deque after dropping from the front what is too old. */
  function Pruned<T>(dq: seq<T>, at: T -> int, cutoff: int): seq<T> {
    if dq != [] && at(dq[0]) <= cutoff then Pruned(dq[1..], at, cutoff) else dq
  }

  function Itself(ts: int): int {
    ts
  }

  function TimeOf(s: Spent): int {
    s.ts
  }

  function PrunedTs(ts: seq<int>, cutoff: int): seq<int> {
    Pruned(ts, Itself, cutoff)
  }

  function PrunedSpend(sp: seq<Spent>, cutoff: int): seq<Spent> {
    Pruned(sp, TimeOf, cutoff)
  }

  function SumSpent(sp: seq<Spent>): real {
    if sp == [] then 0.0 else sp[0].notional + SumSpent(sp[1..])
  }

  function Floor(starting: real, cfg: Config): real {
    Times(starting, 1.0 - cfg.maxDrawdownPct)
  }

  /** Rules 1 to 5: everything before the windows. */
  function EarlyDenial(e: Engine, cfg: Config, i: Intent, t: Tick, w: Wallet, age: Option<int>): Verdict
    requires e.starting.Some?
  {
    if cfg.killSwitch then KILL_SWITCH
    else if e.tripped || w.EquityAt(t.symbol, t.price) < Floor(e.starting.value, cfg) then CIRCUIT_BREAKER
    else if cfg.maxStalenessNs.Some? && age.Some? && age.value > cfg.maxStalenessNs.value then STALE_DATA
    else if i.symbol !in cfg.allowedSymbols then SYMBOL
    else if i.Notional(t.price) > cfg.maxNotionalPerTx then CAP
    else if cfg.minNotionalPerTx.Some? && i.Notional(t.price) < cfg.minNotionalPerTx.value - TINY then MIN_NOTIONAL
    else ALLOW
  }

  /** Rule 8. */
  function Solvency(cfg: Config, i: Intent, t: Tick, w: Wallet): Verdict {
    if i.side == BUY then
      if Times(i.Notional(t.price), 1.0 + cfg.feeRate) > w.quote + TINY then INSUFFICIENT_QUOTE else ALLOW
    else if i.baseAmount > w.Base(i.symbol) + TINY then INSUFFICIENT_BASE else ALLOW
  }

  function Anchored(e: Engine, t: Tick, w: Wallet): Engine {
    if e.starting.Some? then e else e.(starting := Some(w.EquityAt(t.symbol, t.price)))
  }

  /** The ruling, and the engine it leaves: anchored, perhaps tripped, windows pruned as far
      as the rules got. */
  function Evaluated(e0: Engine, cfg: Config, i: Intent, t: Tick, w: Wallet, age: Option<int>): (Engine, Verdict) {
    var e := Anchored(e0, t, w);
    var early := EarlyDenial(e, cfg, i, t, w, age);
    if early == CIRCUIT_BREAKER then (e.(tripped := true), early)
    else if early != ALLOW then (e, early)
    else Windowed(e, cfg, i, t, w)
  }

  /** The last rules: both windows and solvency. */
  function Windowed(e: Engine, cfg: Config, i: Intent, t: Tick, w: Wallet): (Engine, Verdict) {
    var counted := e.(recent := PrunedTs(e.recent, t.ts - cfg.windowSteps));
    if |counted.recent| >= cfg.maxTxPerWindow then (counted, RATE_LIMIT)
    else if cfg.maxNotionalPerWindow.None? then (counted, Solvency(cfg, i, t, w))
    else
      var summed := counted.(spend := PrunedSpend(e.spend, t.ts - cfg.SpendWindow()));
      if SumSpent(summed.spend) + i.Notional(t.price) > cfg.maxNotionalPerWindow.value + TINY
      then (summed, SPEND_BUDGET)
      else (summed, Solvency(cfg, i, t, w))
  }

  function Registered(e: Engine, ts: int, notional: real): Engine {
    e.(recent := e.recent + [ts], spend := e.spend + [Spent(ts, notional)])
  }

  class PolicyEngine {
    const config: Config
    var starting: Option<real>
    var tripped: bool
    var recent: seq<int>
    var spend: seq<Spent>

    constructor (config: Config)
      ensures this.config == config && State() == NEW_ENGINE
    {
      this.config := config;
      starting, tripped, recent, spend := None, false, [], [];
    }

    function State(): Engine
      reads this
    {
      Engine(starting, tripped, recent, spend)
    }

    method Evaluate(i: Intent, t: Tick, wallet: SimWallet, age: Option<int>) returns (v: Verdict)
      modifies this
      ensures State() == Evaluated(old(State()), config, i, t, wallet.State(), age).0
      ensures v == Evaluated(old(State()), config, i, t, wallet.State(), age).1
      ensures wallet.State() == old(wallet.State())
    {
      hide Times, Floor, Intent.Notional, Wallet.EquityAt, Windowed;
      var equity := wallet.Equity(map[t.symbol := t.price]);
      if starting.None? {
        starting := Some(equity);
      }
      if config.killSwitch {
        return KILL_SWITCH;
      }
      var floor := Floor(starting.value, config);
      if tripped || equity < floor {
        tripped := true;
        return CIRCUIT_BREAKER;
      }
      if config.maxStalenessNs.Some? && age.Some? {
        if age.value > config.maxStalenessNs.value {
          return STALE_DATA;
        }
      }
      if i.symbol !in config.allowedSymbols {
        return SYMBOL;
      }
      var notional := i.Notional(t.price);
      if notional > config.maxNotionalPerTx {
        return CAP;
      }
      if config.minNotionalPerTx.Some? && notional < config.minNotionalPerTx.value - TINY {
        return MIN_NOTIONAL;
      }
      v := CheckWindows(i, t, notional, wallet);
    }

    /** Rules 6 to 8. */
    method CheckWindows(i: Intent, t: Tick, notional: real, wallet: SimWallet) returns (v: Verdict)
      requires notional == i.Notional(t.price)
      modifies this`recent, this`spend
      ensures (State(), v) == Windowed(old(State()), config, i, t, wallet.State())
    {
      hide Times, Pruned, PrunedTs, PrunedSpend, SumSpent, Intent.Notional, Config.SpendWindow, Solvency;
      PruneRecent(t.ts, config.windowSteps);
      if |recent| >= config.maxTxPerWindow {
        return RATE_LIMIT;
      }
      if config.maxNotionalPerWindow.Some? {
        PruneSpend(t.ts, config.SpendWindow());
        var spent := SpentNow();
        if spent + notional > config.maxNotionalPerWindow.value + TINY {
          return SPEND_BUDGET;
        }
      }
      v := CheckFunds(i, notional, wallet);
    }

    /** Rule 8. */
    method CheckFunds(i: Intent, notional: real, wallet: SimWallet) returns (v: Verdict)
      ensures forall t: Tick :: i.Notional(t.price) == notional ==> v == Solvency(config, i, t, wallet.State())
    {
      hide Times, Intent.Notional;
      if i.side == BUY {
        var cost := Times(notional, 1.0 + config.feeRate);
        return if cost > wallet.quote + TINY then INSUFFICIENT_QUOTE else ALLOW;
      }
      var held := wallet.BaseBalance(i.symbol);
      return if i.baseAmount > held + TINY then INSUFFICIENT_BASE else ALLOW;
    }

    method PruneRecent(now: int, window: int)
      modifies this`recent
      ensures recent == PrunedTs(old(recent), now - window)
    {
      var cutoff := now - window;
      while recent != [] && recent[0] <= cutoff
        invariant PrunedTs(recent, cutoff) == PrunedTs(old(recent), cutoff)
        decreases |recent|
      {
        recent := recent[1..];
      }
    }

    method PruneSpend(now: int, window: int)
      modifies this`spend
      ensures spend == PrunedSpend(old(spend), now - window)
    {
      var cutoff := now - window;
      while spend != [] && spend[0].ts <= cutoff
        invariant PrunedSpend(spend, cutoff) == PrunedSpend(old(spend), cutoff)
        decreases |spend|
      {
        spend := spend[1..];
      }
    }

    method SpentNow() returns (total: real)
      ensures total == SumSpent(spend)
    {
      total := 0.0;
      for k := 0 to |spend|
        invariant total + SumSpent(spend[k..]) == SumSpent(spend)
      {
        assert spend[k..][1..] == spend[k + 1..];
        total := total + spend[k].notional;
      }
    }

    method RegisterFill(ts: int, notional: real)
      modifies this`recent, this`spend
      ensures State() == Registered(old(State()), ts, notional)
    {
      recent := recent + [ts];
      spend := spend + [Spent(ts, notional)];
    }

    method Saved() returns (s: Engine)
      ensures s == State()
    {
      s := Engine(starting, tripped, recent, spend);
    }

    /** From a stored snapshot, with the code's defaults for what it lacks. */
    method Restore(s: Stored)
      modifies this
      ensures State() == Recalled(s)
    {
      starting := s.starting;
      tripped := if s.tripped.Some? then s.tripped.value else false;
      recent := if s.recent.Some? then s.recent.value else [];
      spend := if s.spend.Some? then s.spend.value else [];
    }
  }

  /** A snapshot as a dictionary in a file: any key may be missing, and the anchor null. */
  datatype Stored = Stored(starting: Option<real>, tripped: Option<bool>, recent: Option<seq<int>>,
                           spend: Option<seq<Spent>>)

  function StoredOf(e: Engine): Stored {
    Stored(e.starting, Some(e.tripped), Some(e.recent), Some(e.spend))
  }

  function Recalled(s: Stored): Engine {
    Engine(s.starting,
           if s.tripped.Some? then s.tripped.value else false,
           if s.recent.Some? then s.recent.value else [],
           if s.spend.Some? then s.spend.value else [])
  }

  /** A restored engine is the saved one, so it rules on every later sequence of calls as
      that one would; and a snapshot gives the saved engine back only if it lacks nothing that
      was not at its default. */
  lemma RestoreIsExact(e: Engine, s: Stored)
    ensures Recalled(StoredOf(e)) == e
    ensures Recalled(s) == e <==>
              && s.starting == e.starting
              && (s.tripped == Some(e.tripped) || (s.tripped.None? && !e.tripped))
              && (s.recent == Some(e.recent) || (s.recent.None? && e.recent == []))
              && (s.spend == Some(e.spend) || (s.spend.None? && e.spend == []))
  {
  }

  // ---- the breaker latches -------------------------------------------------------------------

  /** A call to the engine. */
  datatype Call = Evaluate(i: Intent, t: Tick, w: Wallet, age: Option<int>) | Register(ts: int, notional: real)

  /** The engine after a sequence of calls. */
  ghost function AfterCalls(e: Engine, cfg: Config, calls: seq<Call>): Engine {
    if calls == [] then e
    else
      var before, c := AfterCalls(e, cfg, calls[..|calls| - 1]), calls[|calls| - 1];
      match c
      case Evaluate(i, t, w, age) => Evaluated(before, cfg, i, t, w, age).0
      case Register(ts, n) => Registered(before, ts, n)
  }

  /** A tripped engine stays tripped and allows nothing, and its anchor never moves. */
  lemma {:induction false} TrippedForGood(e: Engine, cfg: Config, calls: seq<Call>, i: Intent, t: Tick, w: Wallet,
                                          age: Option<int>)
    requires e.tripped
    ensures AfterCalls(e, cfg, calls).tripped
    ensures Evaluated(AfterCalls(e, cfg, calls), cfg, i, t, w, age).1 != ALLOW
  {
    if calls != [] {
      TrippedForGood(e, cfg, calls[..|calls| - 1], i, t, w, age);
    }
  }

  lemma {:induction false} AnchorIsFixed(e: Engine, cfg: Config, calls: seq<Call>)
    requires e.starting.Some?
    ensures AfterCalls(e, cfg, calls).starting == e.starting
  {
    if calls != [] {
      AnchorIsFixed(e, cfg, calls[..|calls| - 1]);
    }
  }

  /** What the intent is worth at the tick: what it asks to spend, or its amount at the price. */
  function Asked(i: Intent, t: Tick): real {
    match i.quoteAmount
    case Some(q) => if q >= 0.0 then q else -q
    case None => (if i.baseAmount >= 0.0 then i.baseAmount else -i.baseAmount) * t.price
  }

  /** Everything the wallet holds, with a price for the tick's symbol only. */
  function Worth(w: Wallet, t: Tick): real {
    w.quote + if t.symbol in w.positions then w.positions[t.symbol] * t.price else 0.0
  }

  lemma WorthIsEquity(w: Wallet, t: Tick)
    ensures w.EquityAt(t.symbol, t.price) == Worth(w, t)
  {
  }

  lemma AskedIsNotional(i: Intent, t: Tick)
    ensures i.Notional(t.price) == Asked(i, t)
  {
  }

  /** An intent is allowed exactly when the breaker is neither latched nor due and every
      other rule is satisfied, each window taken after pruning; and the ruling leaves the
      breaker latched exactly when it was, or was due and no kill switch came first. */
  lemma AllowedIff(e: Engine, cfg: Config, i: Intent, t: Tick, w: Wallet, age: Option<int>)
    ensures var (after, v) := Evaluated(e, cfg, i, t, w, age);
      var notional, equity := Asked(i, t), Worth(w, t);
      var anchor := if e.starting.Some? then e.starting.value else equity;
      var due := equity < anchor * (1.0 - cfg.maxDrawdownPct);
      var span := if cfg.spendWindowSteps.Some? then cfg.spendWindowSteps.value else cfg.windowSteps;
      && after.starting == Some(anchor)
      && (after.tripped <==> e.tripped || (due && !cfg.killSwitch))
      && (v == CIRCUIT_BREAKER <==> !cfg.killSwitch && (e.tripped || due))
      && (v == ALLOW <==>
            && !cfg.killSwitch && !e.tripped && !due
            && (cfg.maxStalenessNs.Some? && age.Some? ==> age.value <= cfg.maxStalenessNs.value)
            && i.symbol in cfg.allowedSymbols && notional <= cfg.maxNotionalPerTx
            && (cfg.minNotionalPerTx.Some? ==> notional >= cfg.minNotionalPerTx.value - 0.000000001)
            && |PrunedTs(e.recent, t.ts - cfg.windowSteps)| < cfg.maxTxPerWindow
            && (cfg.maxNotionalPerWindow.Some? ==>
                  SumSpent(PrunedSpend(e.spend, t.ts - span)) + notional
                      <= cfg.maxNotionalPerWindow.value + 0.000000001)
            && (i.side == BUY ==> notional * (1.0 + cfg.feeRate) <= w.quote + 0.000000001)
            && (i.side == SELL ==>
                  i.baseAmount <= (if i.symbol in w.positions then w.positions[i.symbol] else 0.0) + 0.000000001))
  {
    hide PrunedTs, PrunedSpend, SumSpent, Intent.Notional, Wallet.EquityAt, Worth, Asked;
    WorthIsEquity(w, t);
    AskedIsNotional(i, t);
  }

  /** The rules in the order they are tried, each with whether the intent breaks it. */
  ghost function Rules(e: Engine, cfg: Config, i: Intent, t: Tick, w: Wallet, age: Option<int>): seq<(Verdict, bool)> {
    var notional, equity := Asked(i, t), Worth(w, t);
    var anchor := if e.starting.Some? then e.starting.value else equity;
    var span := if cfg.spendWindowSteps.Some? then cfg.spendWindowSteps.value else cfg.windowSteps;
    [(KILL_SWITCH, cfg.killSwitch),
     (CIRCUIT_BREAKER, e.tripped || equity < anchor * (1.0 - cfg.maxDrawdownPct)),
     (STALE_DATA, cfg.maxStalenessNs.Some? && age.Some? && age.value > cfg.maxStalenessNs.value),
     (SYMBOL, i.symbol !in cfg.allowedSymbols),
     (CAP, notional > cfg.maxNotionalPerTx),
     (MIN_NOTIONAL, cfg.minNotionalPerTx.Some? && notional < cfg.minNotionalPerTx.value - 0.000000001),
     (RATE_LIMIT, |PrunedTs(e.recent, t.ts - cfg.windowSteps)| >= cfg.maxTxPerWindow),
     (SPEND_BUDGET, cfg.maxNotionalPerWindow.Some?
        && SumSpent(PrunedSpend(e.spend, t.ts - span)) + notional
           > cfg.maxNotionalPerWindow.value + 0.000000001),
     (INSUFFICIENT_QUOTE, i.side == BUY && notional * (1.0 + cfg.feeRate) > w.quote + 0.000000001),
     (INSUFFICIENT_BASE, i.side == SELL
        && i.baseAmount > (if i.symbol in w.positions then w.positions[i.symbol] else 0.0) + 0.000000001)]
  }

  /** A denial names the first rule that is broken. */
  lemma FirstBrokenRule(e: Engine, cfg: Config, i: Intent, t: Tick, w: Wallet, age: Option<int>)
    ensures var v, rules := Evaluated(e, cfg, i, t, w, age).1, Rules(e, cfg, i, t, w, age);
      && (v == ALLOW <==> forall k :: 0 <= k < |rules| ==> !rules[k].1)
      && forall k :: 0 <= k < |rules| && rules[k].1 && (forall j :: 0 <= j < k ==> !rules[j].1) ==> v == rules[k].0
  {
    hide EarlyDenial, Windowed, Worth, Asked, PrunedTs, PrunedSpend, SumSpent, Anchored;
    EarlyRules(e, cfg, i, t, w, age);
    LateRules(Anchored(e, t, w), cfg, i, t, w);
    AnchoringKeepsWindows(e, t, w);
  }

  lemma AnchoringKeepsWindows(e: Engine, t: Tick, w: Wallet)
    ensures Anchored(e, t, w).recent == e.recent && Anchored(e, t, w).spend == e.spend
  {
  }

  lemma EarlyRules(e: Engine, cfg: Config, i: Intent, t: Tick, w: Wallet, age: Option<int>)
    ensures var rules := Rules(e, cfg, i, t, w, age);
      EarlyDenial(Anchored(e, t, w), cfg, i, t, w, age)
      == if rules[0].1 then KILL_SWITCH else if rules[1].1 then CIRCUIT_BREAKER else if rules[2].1 then STALE_DATA
         else if rules[3].1 then SYMBOL else if rules[4].1 then CAP else if rules[5].1 then MIN_NOTIONAL else ALLOW
  {
    hide PrunedTs, PrunedSpend, SumSpent, Intent.Notional, Wallet.EquityAt, Worth, Asked;
    WorthIsEquity(w, t);
    AskedIsNotional(i, t);
  }

  lemma LateRules(e: Engine, cfg: Config, i: Intent, t: Tick, w: Wallet)
    ensures forall f: Engine, age: Option<int> :: f.recent == e.recent && f.spend == e.spend ==>
              var rules := Rules(f, cfg, i, t, w, age);
              Windowed(e, cfg, i, t, w).1
              == if rules[6].1 then RATE_LIMIT else if rules[7].1 then SPEND_BUDGET
                 else if rules[8].1 then INSUFFICIENT_QUOTE else if rules[9].1 then INSUFFICIENT_BASE else ALLOW
  {
    hide PrunedTs, PrunedSpend, SumSpent, Intent.Notional, Wallet.EquityAt, Worth, Asked;
    AskedIsNotional(i, t);
  }

  /** now is before without its first k entries, the ones too old, up to the first that is not. */
  ghost predicate Drops<T(!new)>(before: seq<T>, now: seq<T>, at: T -> int, cutoff: int, k: nat) {
    && k <= |before| && now == before[k..] && (forall j :: 0 <= j < k ==> at(before[j]) <= cutoff)
    && (k < |before| ==> at(before[k]) > cutoff)
  }

  lemma {:induction false} PrunedDrops<T(!new)>(dq: seq<T>, at: T -> int, cutoff: int) returns (k: nat)
    ensures Drops(dq, Pruned(dq, at, cutoff), at, cutoff, k)
  {
    k := 0;
    if dq != [] && at(dq[0]) <= cutoff {
      var rest := PrunedDrops(dq[1..], at, cutoff);
      k := rest + 1;
      assert dq[1..][rest..] == dq[k..];
      forall j | 0 <= j < k ensures at(dq[j]) <= cutoff {
        assert j > 0 ==> dq[j] == dq[1..][j - 1];
      }
    }
  }

  /** What a ruling leaves of the windows: both as they were when an earlier rule denied; else the
      fill times without those that are too old, and the spend entries likewise unless the rate
      limit denied or there is no budget. */
  lemma WindowsAfter(e: Engine, cfg: Config, i: Intent, t: Tick, w: Wallet, age: Option<int>)
    returns (j: nat, k: nat)
    ensures var (after, v) := Evaluated(e, cfg, i, t, w, age);
      var span := if cfg.spendWindowSteps.Some? then cfg.spendWindowSteps.value else cfg.windowSteps;
      if v in {KILL_SWITCH, CIRCUIT_BREAKER, STALE_DATA, SYMBOL, CAP, MIN_NOTIONAL}
      then after.recent == e.recent && after.spend == e.spend
      else
        && Drops(e.recent, after.recent, (ts: int) => ts, t.ts - cfg.windowSteps, j)
        && (if v == RATE_LIMIT || cfg.maxNotionalPerWindow.None? then after.spend == e.spend
            else Drops(e.spend, after.spend, (x: Spent) => x.ts, t.ts - span, k))
  {
    hide Pruned, SumSpent, Wallet.EquityAt, Floor, Intent.Notional, Times, PrunedTs, PrunedSpend, Drops,
         Config.SpendWindow;
    j := PrunedTsDrops(e.recent, t.ts - cfg.windowSteps);
    k := PrunedSpendDrops(e.spend, t.ts - cfg.SpendWindow());
    SpanIs(cfg);
  }

  lemma SpanIs(cfg: Config)
    ensures cfg.SpendWindow() == if cfg.spendWindowSteps.Some? then cfg.spendWindowSteps.value else cfg.windowSteps
  {
  }

  lemma PrunedTsDrops(ts: seq<int>, cutoff: int) returns (k: nat)
    ensures Drops(ts, PrunedTs(ts, cutoff), (x: int) => x, cutoff, k)
  {
    k := PrunedDrops(ts, Itself, cutoff);
  }

  lemma PrunedSpendDrops(sp: seq<Spent>, cutoff: int) returns (k: nat)
    ensures Drops(sp, PrunedSpend(sp, cutoff), (x: Spent) => x.ts, cutoff, k)
  {
    k := PrunedDrops(sp, TimeOf, cutoff);
  }

  /** The breaker in the terms of its parameter: against a positive anchor it denies exactly when
      the part of the anchor that is lost exceeds max_drawdown_pct. */
  lemma BreakerIff(e: Engine, cfg: Config, i: Intent, t: Tick, w: Wallet, age: Option<int>)
    requires e.starting.Some? && e.starting.value > 0.0 && !e.tripped && !cfg.killSwitch
    ensures var (after, v) := Evaluated(e, cfg, i, t, w, age);
      var due := (e.starting.value - Worth(w, t)) / e.starting.value > cfg.maxDrawdownPct;
      && (v == CIRCUIT_BREAKER <==> due) && (after.tripped <==> due)
  {
    hide Evaluated, Worth;
    AllowedIff(e, cfg, i, t, w, age);
    LossIff(e.starting.value, Worth(w, t), cfg.maxDrawdownPct);
  }

  lemma LossIff(anchor: real, equity: real, pct: real)
    requires anchor > 0.0
    ensures (anchor - equity) / anchor > pct <==> equity < anchor * (1.0 - pct)
  {
    var q := (anchor - equity) / anchor;
    assert q * anchor == anchor - equity;
    if q > pct {
      PositiveProduct(q - pct, anchor);
    } else {
      ProductNonneg(pct - q, anchor);
    }
  }

  // ---- engines that nothing can tell apart ------------------------------------------------------

  lemma {:induction false} PrunedAgain<T>(dq: seq<T>, at: T -> int, first: int, cutoff: int)
    requires first <= cutoff
    ensures Pruned(Pruned(dq, at, first), at, cutoff) == Pruned(dq, at, cutoff)
  {
    if dq != [] && at(dq[0]) <= first {
      PrunedAgain(dq[1..], at, first, cutoff);
    }
  }

  lemma {:induction false} PrunedAppend<T>(dq: seq<T>, at: T -> int, cutoff: int, x: T)
    ensures Pruned(dq + [x], at, cutoff)
         == if Pruned(dq, at, cutoff) != [] then Pruned(dq, at, cutoff) + [x] else if at(x) <= cutoff then [] else [x]
  {
    if dq == [] {
      assert [] + [x] == [x];
    } else {
      assert (dq + [x])[1..] == dq[1..] + [x];
      PrunedAppend(dq[1..], at, cutoff, x);
    }
  }

  /** Same anchor, same latch, and windows that look the same from `now` on. */
  ghost predicate Alike(a: Engine, b: Engine, cfg: Config, now: int) {
    && a.starting == b.starting && a.tripped == b.tripped
    && (forall c :: c >= now - cfg.windowSteps ==> PrunedTs(a.recent, c) == PrunedTs(b.recent, c))
    && (forall c :: c >= now - cfg.SpendWindow() ==> PrunedSpend(a.spend, c) == PrunedSpend(b.spend, c))
  }

  /** Pruning for a cutoff that is already past is invisible. */
  lemma PruningIsInvisible(e: Engine, cfg: Config, i: Intent, t: Tick, w: Wallet, age: Option<int>)
    requires e.starting.Some?
    ensures Alike(Evaluated(e, cfg, i, t, w, age).0, e.(tripped := Evaluated(e, cfg, i, t, w, age).0.tripped), cfg,
                  t.ts)
  {
    hide Times, EarlyDenial, Solvency, SumSpent, Pruned, Intent.Notional;
    var f := Evaluated(e, cfg, i, t, w, age).0;
    var first, spendFirst := t.ts - cfg.windowSteps, t.ts - cfg.SpendWindow();
    assert f.recent == e.recent || f.recent == PrunedTs(e.recent, first);
    assert f.spend == e.spend || f.spend == PrunedSpend(e.spend, spendFirst);
    forall c | c >= first ensures PrunedTs(f.recent, c) == PrunedTs(e.recent, c) {
      PrunedAgain(e.recent, Itself, first, c);
    }
    forall c | c >= spendFirst ensures PrunedSpend(f.spend, c) == PrunedSpend(e.spend, c) {
      PrunedAgain(e.spend, TimeOf, spendFirst, c);
    }
  }

  /** Engines that look alike rule alike, and go on looking alike. */
  lemma AlikeRules(a: Engine, b: Engine, cfg: Config, now: int, i: Intent, t: Tick, w: Wallet, age: Option<int>)
    requires Alike(a, b, cfg, now) && t.ts >= now
    ensures Evaluated(a, cfg, i, t, w, age).1 == Evaluated(b, cfg, i, t, w, age).1
    ensures Alike(Evaluated(a, cfg, i, t, w, age).0, Evaluated(b, cfg, i, t, w, age).0, cfg, t.ts)
  {
    SameRuling(a, b, cfg, now, i, t, w, age);
    PruningIsInvisible(Anchored(a, t, w), cfg, i, t, w, age);
    PruningIsInvisible(Anchored(b, t, w), cfg, i, t, w, age);
    AnchoredFirst(a, cfg, i, t, w, age);
    AnchoredFirst(b, cfg, i, t, w, age);
  }

  lemma AnchoredFirst(e: Engine, cfg: Config, i: Intent, t: Tick, w: Wallet, age: Option<int>)
    ensures Evaluated(Anchored(e, t, w), cfg, i, t, w, age) == Evaluated(e, cfg, i, t, w, age)
  {
    assert Anchored(Anchored(e, t, w), t, w) == Anchored(e, t, w);
  }

  lemma SameRuling(a: Engine, b: Engine, cfg: Config, now: int, i: Intent, t: Tick, w: Wallet, age: Option<int>)
    requires Alike(a, b, cfg, now) && t.ts >= now
    ensures Evaluated(a, cfg, i, t, w, age).1 == Evaluated(b, cfg, i, t, w, age).1
    ensures Evaluated(a, cfg, i, t, w, age).0.tripped == Evaluated(b, cfg, i, t, w, age).0.tripped
  {
    hide Times, Solvency, SumSpent, PrunedTs, PrunedSpend, Intent.Notional, Floor;
    assert PrunedTs(a.recent, t.ts - cfg.windowSteps) == PrunedTs(b.recent, t.ts - cfg.windowSteps);
    assert PrunedSpend(a.spend, t.ts - cfg.SpendWindow()) == PrunedSpend(b.spend, t.ts - cfg.SpendWindow());
  }

  lemma AlikeRegisters(a: Engine, b: Engine, cfg: Config, now: int, ts: int, notional: real)
    requires Alike(a, b, cfg, now)
    ensures Alike(Registered(a, ts, notional), Registered(b, ts, notional), cfg, now)
  {
    forall c | c >= now - cfg.windowSteps
      ensures PrunedTs(Registered(a, ts, notional).recent, c) == PrunedTs(Registered(b, ts, notional).recent, c)
    {
      assert PrunedTs(a.recent, c) == PrunedTs(b.recent, c);
      PrunedAppend(a.recent, Itself, c, ts);
      PrunedAppend(b.recent, Itself, c, ts);
    }
    forall c | c >= now - cfg.SpendWindow()
      ensures PrunedSpend(Registered(a, ts, notional).spend, c) == PrunedSpend(Registered(b, ts, notional).spend, c)
    {
      assert PrunedSpend(a.spend, c) == PrunedSpend(b.spend, c);
      PrunedAppend(a.spend, TimeOf, c, Spent(ts, notional));
      PrunedAppend(b.spend, TimeOf, c, Spent(ts, notional));
    }
  }

  function TimeOfCall(c: Call): int {
    match c
    case Evaluate(i, t, w, age) => t.ts
    case Register(ts, n) => ts
  }

  /** The calls come in time order, none before `now`. */
  ghost predicate InTimeOrder(calls: seq<Call>, now: int) {
    calls != [] ==>
      && InTimeOrder(calls[..|calls| - 1], now)
      && TimeOfCall(calls[|calls| - 1]) >= TimeAfter(calls[..|calls| - 1], now)
  }

  function TimeAfter(calls: seq<Call>, now: int): int {
    if calls == [] then now else TimeOfCall(calls[|calls| - 1])
  }

  /** No later sequence of calls can tell engines that look alike apart: after it, they
      would still give the same ruling on anything. */
  lemma {:induction false} AlikeForever(a: Engine, b: Engine, cfg: Config, now: int, calls: seq<Call>, i: Intent,
                                        t: Tick, w: Wallet, age: Option<int>)
    requires Alike(a, b, cfg, now) && InTimeOrder(calls, now) && t.ts >= TimeAfter(calls, now)
    ensures Alike(AfterCalls(a, cfg, calls), AfterCalls(b, cfg, calls), cfg, TimeAfter(calls, now))
    ensures Evaluated(AfterCalls(a, cfg, calls), cfg, i, t, w, age).1
        == Evaluated(AfterCalls(b, cfg, calls), cfg, i, t, w, age).1
    decreases |calls|
  {
    hide Alike, Evaluated, Registered;
    if calls != [] {
      var before, c := calls[..|calls| - 1], calls[|calls| - 1];
      AlikeForever(a, b, cfg, now, before, i, t.(ts := TimeAfter(before, now)), w, age);
      var a', b', last := AfterCalls(a, cfg, before), AfterCalls(b, cfg, before), TimeAfter(before, now);
      match c {
        case Evaluate(j, u, v, g) =>
          AlikeRules(a', b', cfg, last, j, u, v, g);
        case Register(ts, n) =>
          AlikeRegisters(a', b', cfg, last, ts, n);
          AlikeLater(Registered(a', ts, n), Registered(b', ts, n), cfg, last, ts);
      }
    }
    AlikeRules(AfterCalls(a, cfg, calls), AfterCalls(b, cfg, calls), cfg, TimeAfter(calls, now), i, t, w, age);
  }

  lemma AlikeLater(a: Engine, b: Engine, cfg: Config, now: int, later: int)
    requires Alike(a, b, cfg, now) && now <= later
    ensures Alike(a, b, cfg, later)
  {
  }
}
