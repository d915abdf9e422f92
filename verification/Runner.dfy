/** treasuryforge/runner.py: on every tick, settle what was approved, ask the agent, let the
    policy rule, and fill at once or on the next tick.  A run is modelled over an arbitrary
    sequence of ticks, each with whatever the agent proposes on seeing it. */
module Runner {
  import opened Sums
  import opened Wrappers
  import opened Trading
  import opened Policy

  datatype Setup = Setup(cfg: Config, executor: Executor, round6: real -> real, delay: int, journaled: bool)

  datatype Moment = Moment(tick: Tick, proposal: Option<Intent>)

  datatype Decision = Decision(intent: Intent, tick: Tick)

  /** An executed intent: what was decided and when, and how it filled. */
  datatype Deal = Deal(decision: Decision, fill: Fill)

  datatype Kind = FILL | DENIED | HOLD

  /** What the histogram counts: a rule that denied, or a fill the wallet refused. */
  datatype Denial = ByRule(verdict: Verdict) | FillAborted

  datatype Event = Event(ts: int, price: real, kind: Kind, equity: real)

  /** One line of the audit trail. */
  datatype Ruling = Ruling(ts: int, price: real, intent: Intent, verdict: Verdict)

  datatype Checkpoint = Checkpoint(lastTs: int, engine: Engine, wallet: Snapshot)

  datatype State = State(
    engine: Engine,
    wallet: Wallet,
    pending: Option<Decision>,
    deals: seq<Deal>,
    events: seq<Event>,
    rulings: seq<Ruling>,
    denials: multiset<Denial>,
    ledger: seq<Fill>,
    saved: seq<Checkpoint>)

  function Fresh(e: Engine, w: Wallet): State {
    State(e, w, None, [], [], [], multiset{}, [], [])
  }

  /** The same, on a journal that holds something already. */
  function OnJournal(e: Engine, w: Wallet, ledger: seq<Fill>, saved: seq<Checkpoint>): State {
    Fresh(e, w).(ledger := ledger, saved := saved)
  }

  function Denied(s: State, why: Denial): State {
    s.(denials := s.denials + multiset{why})
  }

  // ---- one tick -------------------------------------------------------------------------------

  function Logged(s: State, t: Tick, kind: Kind): State {
    s.(events := s.events + [Event(t.ts, t.price, kind, s.wallet.EquityAt(t.symbol, t.price))])
  }

  function Checkpointed(s: State, ts: int): State {
    s.(saved := s.saved + [Checkpoint(ts, s.engine, SnapshotOf(s.wallet))])
  }

  /** Fill at this tick's price; refused by the wallet, it is only logged. */
  function Settled(r: Setup, s: State, d: Decision, t: Tick): State {
    var f := FillFor(r.executor, r.round6, d.intent, t);
    match Applied(s.wallet, f)
    case None => Logged(Denied(s, FillAborted), t, DENIED)
    case Some(w) =>
      var engine := Registered(s.engine, t.ts, Times(f.baseAmount, f.price));
      var filled := Logged(s.(engine := engine, wallet := w, deals := s.deals + [Deal(d, f)]), t, FILL);
      if r.journaled then Checkpointed(filled.(ledger := s.ledger + [f]), f.ts) else filled
  }

  /** Settle what the previous tick left. */
  function Opened(r: Setup, s: State, t: Tick): State {
    if s.pending.Some? then Settled(r, s.(pending := None), s.pending.value, t) else s
  }

  function Ruled(r: Setup, s: State, t: Tick, i: Intent): (State, Verdict) {
    var (engine, v) := Evaluated(s.engine, r.cfg, i, t, s.wallet, None);
    (s.(engine := engine, rulings := s.rulings + [Ruling(t.ts, t.price, i, v)]), v)
  }

  /** Ask the policy about the agent's proposal. */
  function Decided(r: Setup, s: State, m: Moment): State {
    match m.proposal
    case None => Logged(s, m.tick, HOLD)
    case Some(i) =>
      var (ruled, v) := Ruled(r, s, m.tick, i);
      if v != ALLOW then
        var denied := Logged(Denied(ruled, ByRule(v)), m.tick, DENIED);
        if r.journaled && denied.engine.tripped then Checkpointed(denied, m.tick.ts) else denied
      else if r.delay <= 0 then Settled(r, ruled, Decision(i, m.tick), m.tick)
      else ruled.(pending := Some(Decision(i, m.tick)))
  }

  function Stepped(r: Setup, s: State, m: Moment): State {
    Decided(r, Opened(r, s, m.tick), m)
  }

  /** The state after a sequence of ticks. */
  function Ran(r: Setup, s: State, ms: seq<Moment>): State {
    if ms == [] then s else Stepped(r, Ran(r, s, ms[..|ms| - 1]), ms[|ms| - 1])
  }

  function Fills(deals: seq<Deal>): seq<Fill> {
    if deals == [] then [] else Fills(deals[..|deals| - 1]) + [deals[|deals| - 1].fill]
  }

  /** Marked at the last price that was logged; before any, at the prices carried over from an
      earlier run of the same runner, and in a first run at none. */
  ghost function FinalEquity(s: State, symbol: string, carried: map<string, real>): real {
    if s.events == [] then s.wallet.quote + Marked(s.wallet.positions, carried, s.wallet.positions.Keys)
    else s.wallet.EquityAt(symbol, s.events[|s.events| - 1].price)
  }

  // ---- the objects ------------------------------------------------------------------------------

  class Journal {
    var ledger: seq<Fill>
    var state: Option<Checkpoint>
    ghost var written: seq<Checkpoint>

    constructor ()
      ensures ledger == [] && written == [] && Valid()
    {
      ledger, state, written := [], None, [];
    }

    /** The file holds the last checkpoint written. */
    ghost predicate Valid()
      reads this
    {
      state == if written == [] then None else Some(written[|written| - 1])
    }

    method AppendEvent(f: Fill)
      modifies this`ledger
      ensures ledger == old(ledger) + [f]
    {
      ledger := ledger + [f];
    }

    method WriteCheckpoint(c: Checkpoint)
      modifies this`state, this`written
      ensures written == old(written) + [c] && Valid()
    {
      state, written := Some(c), written + [c];
    }
  }

  class RunReport {
    var initialEquity: real
    var finalEquity: real
    var fills: seq<Fill>
    var events: seq<Event>
    var rulings: seq<Ruling>
    var denials: multiset<Denial>
    var breakerTripped: bool
    ghost var deals: seq<Deal>

    constructor ()
      ensures initialEquity == 0.0 && finalEquity == 0.0 && fills == [] && events == [] && rulings == [] && deals == []
      ensures denials == multiset{}
    {
      initialEquity, finalEquity, fills, events, rulings, breakerTripped, deals := 0.0, 0.0, [], [], [], false, [];
      denials := multiset{};
    }
  }

  class Runner {
    const symbol: string
    const policy: PolicyEngine
    const executor: Executor
    const round6: real -> real
    const wallet: SimWallet
    const journal: Journal
    const journaled: bool
    const delay: int
    var lastPrices: map<string, real>
    ghost var carried: map<string, real>        // what earlier runs left there

    constructor (symbol: string, policy: PolicyEngine, executor: Executor, round6: real -> real, wallet: SimWallet,
                 journal: Journal, journaled: bool, delay: int)
      ensures this.symbol == symbol && this.policy == policy && this.wallet == wallet && this.journal == journal
      ensures Config() == Setup(policy.config, executor, round6, delay, journaled) && lastPrices == map[]
    {
      this.symbol, this.policy, this.executor, this.round6 := symbol, policy, executor, round6;
      this.wallet, this.journal, this.journaled, this.delay := wallet, journal, journaled, delay;
      lastPrices := map[];
    }

    ghost function Config(): Setup {
      Setup(policy.config, executor, round6, delay, journaled)
    }

    ghost function StateOf(report: RunReport, pending: Option<Decision>): State
      reads policy, wallet, journal, report
    {
      State(policy.State(), wallet.State(), pending, report.deals, report.events, report.rulings, report.denials,
            journal.ledger, journal.written)
    }

    ghost predicate Valid(report: RunReport)
      reads this, journal, report
    {
      && journal.Valid() && report.fills == Fills(report.deals)
      && lastPrices == if report.events == [] then carried else map[symbol := report.events[|report.events| - 1].price]
    }

    method Log(report: RunReport, t: Tick, kind: Kind, ghost pending: Option<Decision>)
      requires Valid(report) && t.symbol == symbol
      modifies this`lastPrices, report`events
      ensures Valid(report) && StateOf(report, pending) == Logged(old(StateOf(report, pending)), t, kind)
    {
      lastPrices := map[symbol := t.price];
      var equity := wallet.Equity(lastPrices);
      report.events := report.events + [Event(t.ts, t.price, kind, equity)];
    }

    /** Tally a denial and log it. */
    method Refuse(report: RunReport, t: Tick, why: Denial)
      requires Valid(report) && t.symbol == symbol
      modifies this`lastPrices, report`events, report`denials
      ensures Valid(report) && StateOf(report, None) == Logged(Denied(old(StateOf(report, None)), why), t, DENIED)
    {
      report.denials := report.denials + multiset{why};
      Log(report, t, DENIED, None);
    }

    method WriteState(ts: int, ghost report: RunReport, ghost pending: Option<Decision>)
      requires Valid(report)
      modifies journal`state, journal`written
      ensures Valid(report) && StateOf(report, pending) == Checkpointed(old(StateOf(report, pending)), ts)
    {
      var engine := policy.Saved();
      var balances := wallet.Saved();
      journal.WriteCheckpoint(Checkpoint(ts, engine, balances));
    }

    method Settle(report: RunReport, d: Decision, t: Tick)
      requires Valid(report) && t.symbol == symbol
      modifies this`lastPrices, report`events, report`fills, report`deals, report`denials, policy, wallet, journal
      ensures Valid(report) && StateOf(report, None) == Settled(Config(), old(StateOf(report, None)), d, t)
    {
      hide Times, FillFor, Applied, Registered, Wallet.EquityAt, SnapshotOf, Fills;
      FillsNext(report.deals, d);
      var fill := Execute(executor, round6, d.intent, t, wallet);
      if fill.None? {
        Refuse(report, t, FillAborted);
        return;
      }
      policy.RegisterFill(t.ts, Times(fill.value.baseAmount, fill.value.price));
      report.fills := report.fills + [fill.value];
      report.deals := report.deals + [Deal(d, fill.value)];
      Log(report, t, FILL, None);
      if journaled {
        journal.AppendEvent(fill.value);
        WriteState(fill.value.ts, report, None);
      }
    }

    /** The part of the loop after the agent has spoken; what it leaves is pending. */
    method Decide(report: RunReport, m: Moment) returns (pending: Option<Decision>)
      requires Valid(report) && m.tick.symbol == symbol
      modifies this`lastPrices, report, policy, wallet, journal
      ensures Valid(report) && StateOf(report, pending) == Decided(Config(), old(StateOf(report, None)), m)
      ensures report.initialEquity == old(report.initialEquity)
    {
      hide Evaluated, Settled, SnapshotOf, Wallet.EquityAt, Fills, Logged, Checkpointed, Denied;
      if m.proposal.None? {
        Log(report, m.tick, HOLD, None);
        return None;
      }
      var i, t := m.proposal.value, m.tick;
      var verdict := policy.Evaluate(i, t, wallet, None);
      report.rulings := report.rulings + [Ruling(t.ts, t.price, i, verdict)];
      if verdict != ALLOW {
        Refuse(report, t, ByRule(verdict));
        if journaled && policy.tripped {
          WriteState(t.ts, report, None);
        }
        return None;
      }
      if delay <= 0 {
        Settle(report, Decision(i, t), t);
        return None;
      }
      return Some(Decision(i, t));
    }

    /** One turn of the loop: settle what is pending, then decide. */
    method Turn(report: RunReport, waiting: Option<Decision>, m: Moment) returns (pending: Option<Decision>)
      requires Valid(report) && m.tick.symbol == symbol
      modifies this`lastPrices, report, policy, wallet, journal
      ensures Valid(report) && StateOf(report, pending) == Stepped(Config(), old(StateOf(report, waiting)), m)
      ensures report.initialEquity == old(report.initialEquity)
    {
      hide Decided, Opened, Wallet.EquityAt, Settled;
      ghost var before := StateOf(report, waiting);
      if waiting.Some? {
        Settle(report, waiting.value, m.tick);
      }
      assert StateOf(report, None) == Opened(Config(), before, m.tick) by {
        OpenedIs(Config(), before, m.tick);
      }
      pending := Decide(report, m);
    }

    method Run(ms: seq<Moment>) returns (report: RunReport)
      requires journal.Valid()
      requires forall k :: 0 <= k < |ms| ==> ms[k].tick.symbol == symbol
      modifies this, policy, wallet, journal
      ensures fresh(report) && Valid(report)
      ensures var s0 := OnJournal(old(policy.State()), old(wallet.State()), old(journal.ledger), old(journal.written));
        var s := Ran(Config(), s0, ms);
        && StateOf(report, s.pending) == s
        && report.fills == Fills(s.deals) && report.events == s.events && report.rulings == s.rulings
        && report.denials == s.denials
        && report.finalEquity == FinalEquity(s, symbol, old(lastPrices)) && report.breakerTripped == s.engine.tripped
      ensures report.initialEquity
           == if ms == [] then 0.0 else old(wallet.State()).EquityAt(symbol, ms[0].tick.price)
    {
      hide Stepped, Wallet.EquityAt, Ran, Marked, Fills;
      report := new RunReport();
      carried := lastPrices;
      NothingFilled();
      var pending := Loop(report, ms);
      report.finalEquity := wallet.Equity(lastPrices);
      report.breakerTripped := policy.tripped;
    }

    /** The loop over the ticks. */
    method Loop(report: RunReport, ms: seq<Moment>) returns (pending: Option<Decision>)
      requires Valid(report) && report.initialEquity == 0.0
      requires forall k :: 0 <= k < |ms| ==> ms[k].tick.symbol == symbol
      modifies this`lastPrices, report, policy, wallet, journal
      ensures Valid(report) && StateOf(report, pending) == Ran(Config(), old(StateOf(report, None)), ms)
      ensures report.initialEquity
           == if ms == [] then 0.0 else old(wallet.State()).EquityAt(symbol, ms[0].tick.price)
    {
      hide Stepped, Wallet.EquityAt, Ran, Fills;
      pending := None;
      ghost var s0 := StateOf(report, None);
      RanNothing(s0, ms);
      for k := 0 to |ms|
        invariant Valid(report) && StateOf(report, pending) == Ran(Config(), s0, ms[..k])
        invariant k == 0 ==> wallet.State() == s0.wallet
        invariant report.initialEquity == if k == 0 then 0.0 else s0.wallet.EquityAt(symbol, ms[0].tick.price)
      {
        var m := ms[k];
        RanNext(Config(), s0, ms, k);
        if k == 0 {
          report.initialEquity := wallet.Equity(map[m.tick.symbol := m.tick.price]);
        }
        pending := Turn(report, pending, m);
      }
    }
  }

  lemma NothingFilled()
    ensures Fills([]) == []
  {
  }

  lemma RanNothing(s: State, ms: seq<Moment>)
    ensures forall r :: Ran(r, s, ms[..0]) == s
    ensures ms[..|ms|] == ms
  {
  }

  lemma RanNext(r: Setup, s: State, ms: seq<Moment>, k: nat)
    requires k < |ms|
    ensures Ran(r, s, ms[..k + 1]) == Stepped(r, Ran(r, s, ms[..k]), ms[k])
  {
    assert ms[..k + 1][..k] == ms[..k];
  }

  lemma FillsNext(deals: seq<Deal>, d: Decision)
    ensures forall f :: Fills(deals + [Deal(d, f)]) == Fills(deals) + [f]
  {
    forall f ensures Fills(deals + [Deal(d, f)]) == Fills(deals) + [f] {
      assert (deals + [Deal(d, f)])[..|deals|] == deals;
    }
  }

  lemma OpenedIs(r: Setup, s: State, t: Tick)
    ensures Opened(r, s, t) == if s.pending.Some? then Settled(r, s.(pending := None), s.pending.value, t) else s
    ensures s.pending.None? ==> s.(pending := None) == s
  {
  }
}
