/** What a run's report adds up to: every intent was ruled on, every intent that was allowed
    filled or was refused by the wallet, every denial is counted under its rule, and nothing
    was decided below the drawdown floor. */
module RunnerAccounts {
  import opened Sums
  import opened Wrappers
  import opened Trading
  import opened Policy
  import opened Runner
  import opened RunnerWindows
  import opened RunnerSafety

  // ---- counts ------------------------------------------------------------------------------------

  ghost function RuledAs(rulings: seq<Ruling>, v: Verdict): nat {
    if rulings == [] then 0
    else RuledAs(rulings[..|rulings| - 1], v) + if rulings[|rulings| - 1].verdict == v then 1 else 0
  }

  ghost function LoggedAs(events: seq<Event>, kind: Kind): nat {
    if events == [] then 0
    else LoggedAs(events[..|events| - 1], kind) + if events[|events| - 1].kind == kind then 1 else 0
  }

  /** Allowed is filled, refused by the wallet, or waiting; denied is counted under its rule; and
      the log has one line for each fill and each denial. */
  ghost predicate AddsUp(s: State) {
    && RuledAs(s.rulings, ALLOW) == |s.deals| + s.denials[FillAborted] + (if s.pending.Some? then 1 else 0)
    && (forall v: Verdict :: v != ALLOW ==> s.denials[ByRule(v)] == RuledAs(s.rulings, v))
    && LoggedAs(s.events, FILL) == |s.deals| && LoggedAs(s.events, DENIED) == |s.denials|
  }

  lemma RuledNext(rulings: seq<Ruling>, x: Ruling)
    ensures forall v :: RuledAs(rulings + [x], v) == RuledAs(rulings, v) + if x.verdict == v then 1 else 0
  {
    assert (rulings + [x])[..|rulings|] == rulings;
  }

  lemma LoggedNext(events: seq<Event>, x: Event)
    ensures forall k :: LoggedAs(events + [x], k) == LoggedAs(events, k) + if x.kind == k then 1 else 0
  {
    assert (events + [x])[..|events|] == events;
  }

  lemma SettlingAddsUp(r: Setup, s: State, d: Decision, t: Tick)
    requires AddsUp(s.(pending := Some(d)))
    ensures AddsUp(Settled(r, s.(pending := None), d, t)) && Settled(r, s.(pending := None), d, t).pending.None?
  {
    hide Applied, FillFor, SnapshotOf, Registered, RuledAs, LoggedAs, Wallet.EquityAt, Times;
    var after := Settled(r, s.(pending := None), d, t);
    assert s.events == after.events[..|s.events|] && s.events + [after.events[|s.events|]] == after.events;
    LoggedNext(s.events, after.events[|s.events|]);
  }

  lemma DecidingAddsUp(r: Setup, s: State, m: Moment)
    requires AddsUp(s) && s.pending.None?
    ensures AddsUp(Decided(r, s, m))
  {
    hide Settled, Evaluated, SnapshotOf, Wallet.EquityAt, RuledAs, LoggedAs;
    var after := Decided(r, s, m);
    if m.proposal.None? {
      LoggedNext(s.events, after.events[|s.events|]);
    } else {
      var (ruled, v) := Ruled(r, s, m.tick, m.proposal.value);
      RuledNext(s.rulings, ruled.rulings[|s.rulings|]);
      if v != ALLOW {
        LoggedNext(s.events, after.events[|s.events|]);
      } else if r.delay <= 0 {
        SettlingAddsUp(r, ruled, Decision(m.proposal.value, m.tick), m.tick);
        assert ruled.(pending := None) == ruled;
      }
    }
  }

  lemma StepAddsUp(r: Setup, s: State, m: Moment)
    requires AddsUp(s)
    ensures AddsUp(Stepped(r, s, m))
  {
    hide AddsUp, Settled, Decided;
    if s.pending.Some? {
      assert s.(pending := Some(s.pending.value)) == s;
      SettlingAddsUp(r, s, s.pending.value, m.tick);
    }
    DecidingAddsUp(r, Opened(r, s, m.tick), m);
  }

  /** At the end of every tick of a run, on any journal and with any engine, the report adds up. */
  lemma {:induction false} ReportAddsUp(r: Setup, e: Engine, w: Wallet, ledger: seq<Fill>, saved: seq<Checkpoint>,
                                        ms: seq<Moment>)
    ensures AddsUp(Ran(r, OnJournal(e, w, ledger, saved), ms))
  {
    hide Stepped;
    if ms != [] {
      ReportAddsUp(r, e, w, ledger, saved, ms[..|ms| - 1]);
      StepAddsUp(r, Ran(r, OnJournal(e, w, ledger, saved), ms[..|ms| - 1]), ms[|ms| - 1]);
    }
  }

  // ---- the trail ---------------------------------------------------------------------------------

  /** What was proposed, in order. */
  ghost function Proposed(ms: seq<Moment>): seq<(int, real, Intent)> {
    if ms == [] then []
    else
      var m := ms[|ms| - 1];
      Proposed(ms[..|ms| - 1]) + if m.proposal.Some? then [(m.tick.ts, m.tick.price, m.proposal.value)] else []
  }

  /** Each intent was ruled on once, on its tick, and the trail says so in order. */
  lemma {:induction false} EveryIntentIsRuledOn(r: Setup, w: Wallet, ms: seq<Moment>)
    ensures var rulings := Outcome(r, w, ms).rulings;
      && |rulings| == |Proposed(ms)|
      && forall k :: 0 <= k < |rulings| ==> (rulings[k].ts, rulings[k].price, rulings[k].intent) == Proposed(ms)[k]
  {
    hide Settled, Evaluated;
    if ms != [] {
      var init, m := ms[..|ms| - 1], ms[|ms| - 1];
      EveryIntentIsRuledOn(r, w, init);
      var s := Outcome(r, w, init);
      if s.pending.Some? {
        SettlingKeepsLatch(r, s.(pending := None), s.pending.value, m.tick);
      }
      var settled := Opened(r, s, m.tick);
      if m.proposal.Some? {
        SettlingKeepsLatch(r, Ruled(r, settled, m.tick, m.proposal.value).0,
                           Decision(m.proposal.value, m.tick), m.tick);
      }
    }
  }

  // ---- what is allowed fills -----------------------------------------------------------------------

  /** The intent was executed on this tick, or the wallet refused it. */
  ghost predicate Executes(s: State, after: State, d: Decision, t: Tick) {
    || (|after.deals| == |s.deals| + 1 && s.deals <= after.deals
        && var deal := after.deals[|s.deals|];
           deal.decision == d && deal.fill.symbol == d.intent.symbol && deal.fill.side == d.intent.side
           && deal.fill.baseAmount == d.intent.baseAmount && deal.fill.ts == t.ts)
    || (after.deals == s.deals && after.denials[FillAborted] == s.denials[FillAborted] + 1)
  }

  lemma SettlingExecutes(r: Setup, s: State, d: Decision, t: Tick)
    ensures Executes(s, Settled(r, s, d, t), d, t)
  {
    hide Applied, SnapshotOf, Registered, Wallet.EquityAt, Times;
  }

  lemma DecidingLeavesDeals(r: Setup, s: State, m: Moment)
    requires r.delay > 0
    ensures var after := Decided(r, s, m);
      after.deals == s.deals && after.denials[FillAborted] == s.denials[FillAborted]
  {
    hide Settled, Evaluated, SnapshotOf, Wallet.EquityAt;
  }

  /** An intent that is allowed on a tick is executed, or refused by the wallet, on the next one;
      without a delay on the same. */
  lemma AllowedExecutes(r: Setup, w: Wallet, ms: seq<Moment>, k: nat)
    requires k < |ms| && ms[k].proposal.Some?
    requires var rulings := Outcome(r, w, ms[..k + 1]).rulings; rulings != [] && rulings[|rulings| - 1].verdict == ALLOW
    ensures r.delay <= 0 ==>
              Executes(Opened(r, Outcome(r, w, ms[..k]), ms[k].tick), Outcome(r, w, ms[..k + 1]),
                       Decision(ms[k].proposal.value, ms[k].tick), ms[k].tick)
    ensures r.delay > 0 && k + 1 < |ms| ==>
              Executes(Outcome(r, w, ms[..k + 1]), Outcome(r, w, ms[..k + 2]),
                       Decision(ms[k].proposal.value, ms[k].tick), ms[k + 1].tick)
  {
    hide Settled, Evaluated, Executes, SnapshotOf, Wallet.EquityAt;
    var s, m := Outcome(r, w, ms[..k]), ms[k];
    var i := m.proposal.value;
    assert ms[..k + 1][..k] == ms[..k];
    var settled := Opened(r, s, m.tick);
    var (ruled, v) := Ruled(r, settled, m.tick, i);
    SettlingKeepsLatch(r, ruled, Decision(i, m.tick), m.tick);
    SettlingExecutes(r, ruled, Decision(i, m.tick), m.tick);
    if r.delay <= 0 {
      ExecutesFrom(settled, ruled, Outcome(r, w, ms[..k + 1]), Decision(i, m.tick), m.tick);
    } else if k + 1 < |ms| {
      var after, next := Outcome(r, w, ms[..k + 1]), ms[k + 1];
      assert ms[..k + 2][..k + 1] == ms[..k + 1];
      SettlingExecutes(r, after.(pending := None), Decision(i, m.tick), next.tick);
      DecidingLeavesDeals(r, Opened(r, after, next.tick), next);
      ExecutesUpTo(after, Opened(r, after, next.tick), Outcome(r, w, ms[..k + 2]), Decision(i, m.tick), next.tick);
    }
  }

  lemma ExecutesFrom(s: State, same: State, after: State, d: Decision, t: Tick)
    requires Executes(same, after, d, t) && same.deals == s.deals && same.denials == s.denials
    ensures Executes(s, after, d, t)
  {
  }

  lemma ExecutesUpTo(s: State, mid: State, after: State, d: Decision, t: Tick)
    requires Executes(s.(pending := None), mid, d, t)
    requires after.deals == mid.deals && after.denials[FillAborted] == mid.denials[FillAborted]
    ensures Executes(s, after, d, t)
  {
  }

  // ---- the log ---------------------------------------------------------------------------------------

  /** A line of the log: the tick's own time and price, and what the wallet is worth at it. */
  ghost predicate Marks(e: Event, t: Tick, kind: Kind, w: Wallet) {
    e.ts == t.ts && e.price == t.price && e.kind == kind && e.equity == Worth(w, t)
  }

  lemma SettlingIsLogged(r: Setup, s: State, d: Decision, t: Tick)
    ensures var after := Settled(r, s, d, t);
      && |after.events| == |s.events| + 1 && s.events <= after.events
      && Marks(after.events[|s.events|], t, if |after.deals| > |s.deals| then FILL else DENIED, after.wallet)
      && s.saved <= after.saved && forall k :: |s.saved| <= k < |after.saved| ==> after.saved[k].lastTs == t.ts
  {
    hide Applied, SnapshotOf, Registered, Worth, Wallet.EquityAt, Times;
    WorthIsEquity(Settled(r, s, d, t).wallet, t);
  }

  lemma DecidingIsLogged(r: Setup, s: State, m: Moment)
    requires s.pending.None?
    ensures var after := Decided(r, s, m);
      && s.events <= after.events && |after.events| == |s.events| + (if after.pending.Some? then 0 else 1)
      && (after.pending.None? ==>
            Marks(after.events[|s.events|], m.tick,
                  if m.proposal.None? then HOLD else if |after.deals| > |s.deals| then FILL else DENIED, after.wallet))
      && s.saved <= after.saved && forall k :: |s.saved| <= k < |after.saved| ==> after.saved[k].lastTs == m.tick.ts
  {
    hide Settled, Ruled, SnapshotOf, Worth, Wallet.EquityAt;
    if m.proposal.Some? {
      var ruled := Ruled(r, s, m.tick, m.proposal.value).0;
      RulingOnlyRules(r, s, m.tick, m.proposal.value);
      SettlingIsLogged(r, ruled, Decision(m.proposal.value, m.tick), m.tick);
      SettlingKeepsLatch(r, ruled, Decision(m.proposal.value, m.tick), m.tick);
    }
    WorthIsEquity(Decided(r, s, m).wallet, m.tick);
    WorthIsEquity(s.wallet, m.tick);
  }

  /** What a tick logs: a line for what was pending, and a line for the decision unless it now waits;
      and its checkpoints bear its time. */
  lemma TickIsLogged(r: Setup, s: State, m: Moment)
    ensures var mid, after := Opened(r, s, m.tick), Stepped(r, s, m);
      && s.events <= mid.events <= after.events
      && |mid.events| == |s.events| + (if s.pending.Some? then 1 else 0)
      && (s.pending.Some? ==>
            Marks(mid.events[|s.events|], m.tick, if |mid.deals| > |s.deals| then FILL else DENIED, mid.wallet))
      && |after.events| == |mid.events| + (if after.pending.Some? then 0 else 1)
      && (after.pending.None? ==>
            Marks(after.events[|mid.events|], m.tick,
                  if m.proposal.None? then HOLD else if |after.deals| > |mid.deals| then FILL else DENIED,
                  after.wallet))
      && s.saved <= after.saved && forall k :: |s.saved| <= k < |after.saved| ==> after.saved[k].lastTs == m.tick.ts
  {
    hide Settled, Decided, Marks;
    if s.pending.Some? {
      SettlingIsLogged(r, s.(pending := None), s.pending.value, m.tick);
      SettlingKeepsLatch(r, s.(pending := None), s.pending.value, m.tick);
    }
    DecidingIsLogged(r, Opened(r, s, m.tick), m);
  }

  /** What a tick writes: a checkpoint for each fill, and one for each denial by an engine that is
      tripped; each fill goes to the ledger; without a journal nothing is written. */
  ghost predicate Writes(r: Setup, s: State, after: State, trip: bool) {
    && |after.saved| == |s.saved| + (if r.journaled then |after.deals| - |s.deals| + (if trip then 1 else 0) else 0)
    && |after.ledger| == |s.ledger| + (if r.journaled then |after.deals| - |s.deals| else 0)
    && s.saved <= after.saved && s.ledger <= after.ledger
  }

  lemma SettlingIsSaved(r: Setup, s: State, d: Decision, t: Tick)
    ensures Writes(r, s, Settled(r, s, d, t), false) && Settled(r, s, d, t).rulings == s.rulings
  {
    hide Applied, SnapshotOf, Registered, Wallet.EquityAt, Times;
  }

  lemma DecidingIsSaved(r: Setup, s: State, m: Moment)
    ensures var after := Decided(r, s, m);
      && |after.rulings| == |s.rulings| + (if m.proposal.Some? then 1 else 0)
      && Writes(r, s, after, m.proposal.Some? && after.rulings[|s.rulings|].verdict != ALLOW && after.engine.tripped)
  {
    hide Settled, Evaluated, SnapshotOf, Wallet.EquityAt;
    if m.proposal.Some? {
      SettlingIsSaved(r, Ruled(r, s, m.tick, m.proposal.value).0, Decision(m.proposal.value, m.tick), m.tick);
    }
  }

  lemma TickIsSaved(r: Setup, s: State, m: Moment)
    ensures var after := Stepped(r, s, m);
      && |after.rulings| == |s.rulings| + (if m.proposal.Some? then 1 else 0)
      && Writes(r, s, after, m.proposal.Some? && after.rulings[|s.rulings|].verdict != ALLOW && after.engine.tripped)
  {
    hide Settled, Decided;
    if s.pending.Some? {
      SettlingIsSaved(r, s.(pending := None), s.pending.value, m.tick);
    }
    DecidingIsSaved(r, Opened(r, s, m.tick), m);
  }

  /** The final equity is what the wallet is worth at the price of the last line of the log, and
      that is its last tick's unless the only thing that happened on it was an intent that now
      waits. */
  lemma FinalEquityIsWorth(r: Setup, w: Wallet, ms: seq<Moment>, symbol: string, carried: map<string, real>)
    requires ms != []
    ensures var s, before := Outcome(r, w, ms), Outcome(r, w, ms[..|ms| - 1]);
      var t := ms[|ms| - 1].tick;
      && (s.events != [] ==>
            FinalEquity(s, symbol, carried) == Worth(s.wallet, Tick(symbol, s.events[|s.events| - 1].price, t.ts)))
      && (s.pending.None? || before.pending.Some? ==> s.events != [] && s.events[|s.events| - 1].price == t.price)
      && (s.pending.Some? && before.pending.None? ==> s.events == before.events)
  {
    hide Stepped, Worth, Wallet.EquityAt, Opened;
    var s, t := Outcome(r, w, ms), ms[|ms| - 1].tick;
    TickIsLogged(r, Outcome(r, w, ms[..|ms| - 1]), ms[|ms| - 1]);
    if s.events != [] {
      WorthIsEquity(s.wallet, Tick(symbol, s.events[|s.events| - 1].price, t.ts));
    }
  }

  // ---- the drawdown floor ---------------------------------------------------------------------------

  /** What the wallet is worth when tick j is decided on. */
  ghost function WorthAt(r: Setup, w: Wallet, ms: seq<Moment>, j: nat): real
    requires j < |ms|
  {
    Worth(Opened(r, Outcome(r, w, ms[..j]), ms[j].tick).wallet, ms[j].tick)
  }

  /** The anchor of a run is what the wallet was worth on the first tick with a proposal. */
  lemma {:induction false} AnchorIsFirstWorth(r: Setup, w: Wallet, ms: seq<Moment>, first: nat)
    requires first < |ms| && ms[first].proposal.Some? && forall j :: 0 <= j < first ==> ms[j].proposal.None?
    ensures Outcome(r, w, ms).engine.starting == Some(WorthAt(r, w, ms, first))
    decreases |ms|
  {
    hide Settled, Evaluated, Worth, Wallet.EquityAt;
    var init, m := ms[..|ms| - 1], ms[|ms| - 1];
    var s := Outcome(r, w, init);
    if s.pending.Some? {
      SettlingKeepsLatch(r, s.(pending := None), s.pending.value, m.tick);
    }
    var settled := Opened(r, s, m.tick);
    if m.proposal.Some? {
      var ruled := Ruled(r, settled, m.tick, m.proposal.value).0;
      AllowedIff(settled.engine, r.cfg, m.proposal.value, m.tick, settled.wallet, None);
      SettlingKeepsLatch(r, ruled, Decision(m.proposal.value, m.tick), m.tick);
    }
    if first < |init| {
      AnchorIsFirstWorth(r, w, init, first);
      assert init[..first] == ms[..first] && init[first] == ms[first];
    } else {
      NotAnchored(r, w, init);
    }
  }

  lemma {:induction false} NotAnchored(r: Setup, w: Wallet, ms: seq<Moment>)
    requires forall j :: 0 <= j < |ms| ==> ms[j].proposal.None?
    ensures Outcome(r, w, ms).engine == NEW_ENGINE && Outcome(r, w, ms).pending.None?
    ensures Outcome(r, w, ms).wallet == w
  {
    hide Settled, Evaluated;
    if ms != [] {
      NotAnchored(r, w, ms[..|ms| - 1]);
    }
  }

  /** On tick j the loss against a positive anchor was within max_drawdown_pct. */
  ghost predicate Sheltered(r: Setup, w: Wallet, ms: seq<Moment>, anchor: Option<real>, d: Decision, j: nat) {
    && j < |ms| && ms[j].tick == d.tick && ms[j].proposal == Some(d.intent) && anchor.Some?
    && (anchor.value > 0.0 ==> (anchor.value - WorthAt(r, w, ms, j)) / anchor.value <= r.cfg.maxDrawdownPct)
  }

  ghost predicate DecidedInTime(r: Setup, w: Wallet, ms: seq<Moment>, anchor: Option<real>, d: Decision) {
    exists j: nat :: Sheltered(r, w, ms, anchor, d, j)
  }

  lemma ShelteredMore(r: Setup, w: Wallet, ms: seq<Moment>, m: Moment, anchor: Option<real>, d: Decision)
    requires DecidedInTime(r, w, ms, anchor, d)
    ensures DecidedInTime(r, w, ms + [m], anchor, d)
  {
    hide Worth, Opened, Ran;
    var j: nat :| Sheltered(r, w, ms, anchor, d, j);
    assert (ms + [m])[..j] == ms[..j] && (ms + [m])[j] == ms[j];
    assert Sheltered(r, w, ms + [m], anchor, d, j);
  }

  ghost predicate AllInTime(r: Setup, w: Wallet, ms: seq<Moment>, s: State) {
    && (forall k :: 0 <= k < |s.deals| ==> DecidedInTime(r, w, ms, s.engine.starting, s.deals[k].decision))
    && (s.pending.Some? ==> DecidedInTime(r, w, ms, s.engine.starting, s.pending.value))
    && (s.deals != [] || s.pending.Some? ==> s.engine.starting.Some?)
  }

  lemma SettlingInTime(r: Setup, w: Wallet, ms: seq<Moment>, s: State, d: Decision, t: Tick)
    requires AllInTime(r, w, ms, s.(pending := Some(d)))
    ensures AllInTime(r, w, ms, Settled(r, s.(pending := None), d, t))
  {
    hide DecidedInTime, Applied, FillFor, SnapshotOf, Wallet.EquityAt, Times;
  }

  /** An ALLOW on the last tick of ms is within the floor. */
  lemma AllowIsInTime(r: Setup, w: Wallet, ms: seq<Moment>)
    requires ms != [] && ms[|ms| - 1].proposal.Some?
    requires var m := ms[|ms| - 1];
      Ruled(r, Opened(r, Outcome(r, w, ms[..|ms| - 1]), m.tick), m.tick, m.proposal.value).1 == ALLOW
    ensures var m := ms[|ms| - 1];
      var ruled := Ruled(r, Opened(r, Outcome(r, w, ms[..|ms| - 1]), m.tick), m.tick, m.proposal.value).0;
      DecidedInTime(r, w, ms, ruled.engine.starting, Decision(m.proposal.value, m.tick))
  {
    hide Worth, Evaluated, Settled;
    var j, m := |ms| - 1, ms[|ms| - 1];
    var settled := Opened(r, Outcome(r, w, ms[..j]), m.tick);
    AllowedIff(settled.engine, r.cfg, m.proposal.value, m.tick, settled.wallet, None);
    var anchor := if settled.engine.starting.Some? then settled.engine.starting.value
                  else Worth(settled.wallet, m.tick);
    if anchor > 0.0 {
      LossIff(anchor, Worth(settled.wallet, m.tick), r.cfg.maxDrawdownPct);
    }
    assert Sheltered(r, w, ms, Some(anchor), Decision(m.proposal.value, m.tick), j);
  }

  /** Over every run: whatever filled or waits was decided on a tick on which the wallet had lost
      at most max_drawdown_pct of the run's anchor. */
  lemma {:induction false} NothingBelowTheFloor(r: Setup, w: Wallet, ms: seq<Moment>)
    ensures AllInTime(r, w, ms, Outcome(r, w, ms))
  {
    hide Settled, Decided, DecidedInTime, Evaluated;
    if ms != [] {
      var init, m := ms[..|ms| - 1], ms[|ms| - 1];
      assert init + [m] == ms;
      NothingBelowTheFloor(r, w, init);
      var s := Outcome(r, w, init);
      InTimeMore(r, w, init, m, s);
      if s.pending.Some? {
        assert s.(pending := Some(s.pending.value)) == s;
        SettlingInTime(r, w, ms, s, s.pending.value, m.tick);
        SettlingKeepsLatch(r, s.(pending := None), s.pending.value, m.tick);
      }
      DecidingInTime(r, w, ms, Opened(r, s, m.tick));
    }
  }

  lemma InTimeMore(r: Setup, w: Wallet, ms: seq<Moment>, m: Moment, s: State)
    requires AllInTime(r, w, ms, s)
    ensures AllInTime(r, w, ms + [m], s)
  {
    hide DecidedInTime;
    forall k | 0 <= k < |s.deals| ensures DecidedInTime(r, w, ms + [m], s.engine.starting, s.deals[k].decision) {
      ShelteredMore(r, w, ms, m, s.engine.starting, s.deals[k].decision);
    }
    if s.pending.Some? {
      ShelteredMore(r, w, ms, m, s.engine.starting, s.pending.value);
    }
  }

  lemma DecidingInTime(r: Setup, w: Wallet, ms: seq<Moment>, s: State)
    requires ms != [] && s == Opened(r, Outcome(r, w, ms[..|ms| - 1]), ms[|ms| - 1].tick)
    requires AllInTime(r, w, ms, s) && s.pending.None?
    ensures AllInTime(r, w, ms, Decided(r, s, ms[|ms| - 1]))
  {
    hide Settled, DecidedInTime, Ruled, SnapshotOf, Wallet.EquityAt, Opened;
    var m := ms[|ms| - 1];
    if m.proposal.Some? {
      var (ruled, v) := Ruled(r, s, m.tick, m.proposal.value);
      RulingLatches(r, s, m.tick, m.proposal.value);
      RulingOnlyRules(r, s, m.tick, m.proposal.value);
      if v == ALLOW {
        AllowIsInTime(r, w, ms);
        if r.delay <= 0 {
          SettlingInTime(r, w, ms, ruled, Decision(m.proposal.value, m.tick), m.tick);
          assert ruled.(pending := None) == ruled;
        }
      }
    }
  }
}
