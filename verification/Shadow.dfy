/** The paper books of treasuryforge/shadow.py and treasuryforge/shadow_basis.py, which
    rebuild themselves from their ledger, and the ledger analysis of
    treasuryforge/pnl_decomposition.py. */
module Shadow {
  import opened Sums
  import opened Funding

  /** A line of the journal's ledger. */
  datatype Line =
    | ShadowLine(ts: int, action: Action, funding: real, r: real, age: int)
    | BasisLine(ts: int, action: Action, funding: real, r: real, premium: real)
    | OtherLine

  class Ledger {
    var lines: seq<Line>

    constructor ()
      ensures lines == []
    {
      lines := [];
    }

    method Append(line: Line)
      modifies this
      ensures lines == old(lines) + [line]
    {
      lines := lines + [line];
    }
  }

  /** The figures both books keep. */
  datatype Figures = Figures(equity: real, rets: seq<real>, funding: real, convergence: real,
                             costs: real, entries: int, exits: int, holds: int)

  const NO_FIGURES := Figures(1.0, [], 0.0, 0.0, 0.0, 0, 0, 0)

  function Applied(x: Figures, action: Action, funding: real, convergence: real, r: real,
                   entryCost: real, exitCost: real): Figures {
    var y := x.(equity := Times(x.equity, 1.0 + r), rets := x.rets + [r]);
    match action
    case ENTER => y.(entries := x.entries + 1, costs := x.costs + entryCost)
    case HOLD => y.(holds := x.holds + 1, funding := x.funding + funding, convergence := x.convergence + convergence)
    case EXIT => y.(exits := x.exits + 1, costs := x.costs + exitCost)
    case FLAT => y
  }

  predicate InPosition(a: Action) {
    a == ENTER || a == HOLD
  }

  // ---- shadow.py ---------------------------------------------------------------------------

  datatype Observation = Observation(funding: real, ts: int, allowEntry: bool)

  datatype Book = Book(signal: SignalState, figures: Figures)

  const NEW_BOOK := Book(SignalState(false, 0), NO_FIGURES)

  function ReturnFor(action: Action, funding: real, p: CarryParams): real {
    match action
    case ENTER => -p.EntryCost()
    case HOLD => funding
    case EXIT => -p.ExitCost()
    case FLAT => 0.0
  }

  /** One live observation: the book after it and the line it writes. */
  function Observed(b: Book, o: Observation, p: CarryParams, k: int): (Book, Line, Action) {
    var (signal, decided) := Decided(b.signal, o.funding, p.Rates(), k);
    var vetoed := decided == ENTER && !o.allowEntry;
    var action := if vetoed then FLAT else decided;
    var after := if vetoed then signal.(inPos := false) else signal;
    var r := ReturnFor(action, o.funding, p);
    (Book(after, Applied(b.figures, action, o.funding, 0.0, r, p.EntryCost(), p.ExitCost())),
     ShadowLine(o.ts, action, o.funding, r, after.age),
     action)
  }

  /** One line replayed; lines of other kinds are skipped. */
  function Replayed(b: Book, line: Line, p: CarryParams): Book {
    match line
    case ShadowLine(_, action, funding, r, age) =>
      Book(SignalState(InPosition(action), age),
           Applied(b.figures, action, funding, 0.0, r, p.EntryCost(), p.ExitCost()))
    case _ => b
  }

  function ReplayAll(lines: seq<Line>, p: CarryParams): Book {
    if lines == [] then NEW_BOOK else Replayed(ReplayAll(lines[..|lines| - 1], p), lines[|lines| - 1], p)
  }

  class ShadowBook {
    const signal: FundingCarrySignal
    const journal: Ledger
    var equity: real
    var rets: seq<real>
    var realizedFunding: real
    var totalCosts: real
    var nEntries: int
    var nExits: int
    var nHold: int

    function State(): Book
      reads this, signal
    {
      Book(signal.State(), Figures(equity, rets, realizedFunding, 0.0, totalCosts, nEntries, nExits, nHold))
    }

    /** Start by replaying whatever the ledger holds. */
    constructor (signal: FundingCarrySignal, journal: Ledger)
      requires signal.State() == NEW_BOOK.signal
      modifies signal
      ensures this.signal == signal && this.journal == journal
      ensures State() == ReplayAll(journal.lines, signal.p)
    {
      this.signal, this.journal := signal, journal;
      equity, rets, realizedFunding, totalCosts := 1.0, [], 0.0, 0.0;
      nEntries, nExits, nHold := 0, 0, 0;
      new;
      var lines := journal.lines;
      for i := 0 to |lines|
        invariant journal.lines == lines && State() == ReplayAll(lines[..i], signal.p)
      {
        assert lines[..i + 1][..i] == lines[..i];
        var line := lines[i];
        if line.ShadowLine? {
          Apply(line.action, line.funding, line.r);
          signal.inPosition := InPosition(line.action);
          signal.age := line.age;
        }
      }
      assert lines[..|lines|] == lines;
    }

    method Observe(o: Observation) returns (action: Action)
      modifies this, signal, journal
      ensures (State(), action) == (Observed(old(State()), o, signal.p, Gate(signal.minAge)).0,
                                    Observed(old(State()), o, signal.p, Gate(signal.minAge)).2)
      ensures journal.lines == old(journal.lines) + [Observed(old(State()), o, signal.p, Gate(signal.minAge)).1]
    {
      action := signal.Decide(o.funding);
      if action == ENTER && !o.allowEntry {
        signal.inPosition := false;
        action := FLAT;
      }
      var r := ReturnFor(action, o.funding, signal.p);
      Apply(action, o.funding, r);
      journal.Append(ShadowLine(o.ts, action, o.funding, r, signal.age));
    }

    method Apply(action: Action, funding: real, r: real)
      modifies this
      ensures State() == Book(old(State()).signal,
                Applied(old(State()).figures, action, funding, 0.0, r, signal.p.EntryCost(), signal.p.ExitCost()))
    {
      equity := Times(equity, 1.0 + r);
      rets := rets + [r];
      match action {
        case ENTER =>
          nEntries := nEntries + 1;
          totalCosts := totalCosts + signal.p.EntryCost();
        case HOLD =>
          nHold := nHold + 1;
          realizedFunding := realizedFunding + funding;
        case EXIT =>
          nExits := nExits + 1;
          totalCosts := totalCosts + signal.p.ExitCost();
        case FLAT =>
      }
    }
  }

  // ---- restarts make no difference ------------------------------------------------------------

  /** What can happen to a book and its ledger. */
  datatype Happening = Observe(o: Observation) | Restart | Foreign

  /** Books and ledgers after a history with restarts in it. */
  ghost function Lived(hs: seq<Happening>, p: CarryParams, k: int): (Book, seq<Line>) {
    if hs == [] then (NEW_BOOK, [])
    else
      var (b, lines) := Lived(hs[..|hs| - 1], p, k);
      match hs[|hs| - 1]
      case Observe(o) => (Observed(b, o, p, k).0, lines + [Observed(b, o, p, k).1])
      case Restart => (ReplayAll(lines, p), lines)
      case Foreign => (b, lines + [OtherLine])
  }

  /** The same history as seen by a book that is never restarted. */
  ghost function NeverRestarted(hs: seq<Happening>, p: CarryParams, k: int): Book {
    if hs == [] then NEW_BOOK
    else
      var b := NeverRestarted(hs[..|hs| - 1], p, k);
      if hs[|hs| - 1].Observe? then Observed(b, hs[|hs| - 1].o, p, k).0 else b
  }

  /** A line replays to exactly what writing it did. */
  lemma ReplayIsFaithful(b: Book, o: Observation, p: CarryParams, k: int)
    ensures Replayed(b, Observed(b, o, p, k).1, p) == Observed(b, o, p, k).0
  {
  }

  lemma ReplayAppend(lines: seq<Line>, line: Line, p: CarryParams)
    ensures ReplayAll(lines + [line], p) == Replayed(ReplayAll(lines, p), line, p)
  {
    assert (lines + [line])[..|lines|] == lines;
  }

  /** For every history of observations, vetoes, restarts and foreign lines, the book is
      the one that was never restarted, and the one its ledger replays to. */
  lemma {:induction false} RestartsDoNotMatter(hs: seq<Happening>, p: CarryParams, k: int)
    ensures Lived(hs, p, k).0 == NeverRestarted(hs, p, k)
    ensures Lived(hs, p, k).0 == ReplayAll(Lived(hs, p, k).1, p)
  {
    hide Observed, Replayed;
    if hs != [] {
      var front := hs[..|hs| - 1];
      RestartsDoNotMatter(front, p, k);
      var (b, lines) := Lived(front, p, k);
      match hs[|hs| - 1]
      case Observe(o) =>
        ReplayAppend(lines, Observed(b, o, p, k).1, p);
        ReplayIsFaithful(b, o, p, k);
      case Restart =>
      case Foreign =>
        ReplayAppend(lines, OtherLine, p);
        ReplaySkips(b, p);
    }
  }

  lemma ReplaySkips(b: Book, p: CarryParams)
    ensures Replayed(b, OtherLine, p) == b
  {
  }

  // ---- shadow_basis.py ----------------------------------------------------------------------------

  datatype BasisParams = BasisParams(enterPremium: real, exitPremium: real, feePerLeg: real, legsRoundTrip: int) {
    predicate Valid() {
      exitPremium <= enterPremium
    }

    function EntryCost(): real {
      (legsRoundTrip as real / 2.0) * feePerLeg
    }

    function ExitCost(): real {
      (legsRoundTrip as real / 2.0) * feePerLeg
    }
  }

  function BasisDecided(inPos: bool, premium: real, p: BasisParams): (bool, Action) {
    if !inPos then
      if premium >= p.enterPremium then (true, ENTER) else (false, FLAT)
    else if premium <= p.exitPremium then (false, EXIT)
    else (true, HOLD)
  }

  datatype BasisObservation = BasisObservation(funding: real, premium: real, ts: int, allowEntry: bool)

  datatype BasisState = BasisState(inPos: bool, prevPremium: real, figures: Figures)

  const NEW_BASIS := BasisState(false, 0.0, NO_FIGURES)

  function BasisObserved(b: BasisState, o: BasisObservation, p: BasisParams): (BasisState, Line, Action) {
    var (inPos, decided) := BasisDecided(b.inPos, o.premium, p);
    var vetoed := decided == ENTER && !o.allowEntry;
    var action := if vetoed then FLAT else decided;
    var convergence := if action == HOLD then b.prevPremium - o.premium else 0.0;
    var r := match action
      case ENTER => -p.EntryCost()
      case HOLD => o.funding + convergence
      case EXIT => -p.ExitCost()
      case FLAT => 0.0;
    (BasisState(inPos && !vetoed, if InPosition(action) then o.premium else b.prevPremium,
                Applied(b.figures, action, o.funding, convergence, r, p.EntryCost(), p.ExitCost())),
     BasisLine(o.ts, action, o.funding, r, o.premium),
     action)
  }

  /** Replay recovers the convergence of a held interval as r - funding. */
  function BasisReplayed(b: BasisState, line: Line, p: BasisParams): BasisState {
    match line
    case BasisLine(_, action, funding, r, premium) =>
      var convergence := if action == HOLD then r - funding else 0.0;
      BasisState(InPosition(action), if InPosition(action) then premium else b.prevPremium,
                 Applied(b.figures, action, funding, convergence, r, p.EntryCost(), p.ExitCost()))
    case _ => b
  }

  function BasisReplayAll(lines: seq<Line>, p: BasisParams): BasisState {
    if lines == [] then NEW_BASIS else BasisReplayed(BasisReplayAll(lines[..|lines| - 1], p), lines[|lines| - 1], p)
  }

  class BasisSignal {
    const p: BasisParams
    var inPosition: bool

    constructor (p: BasisParams)
      requires p.Valid()
      ensures this.p == p && !inPosition
    {
      this.p, inPosition := p, false;
    }

    method Decide(premium: real) returns (a: Action)
      modifies this
      ensures (inPosition, a) == BasisDecided(old(inPosition), premium, p)
    {
      if !inPosition {
        if premium >= p.enterPremium {
          inPosition := true;
          return ENTER;
        }
        return FLAT;
      }
      if premium <= p.exitPremium {
        inPosition := false;
        return EXIT;
      }
      return HOLD;
    }
  }

  class BasisBook {
    const signal: BasisSignal
    const journal: Ledger
    var figures: Figures
    var prevPremium: real

    function State(): BasisState
      reads this, signal
    {
      BasisState(signal.inPosition, prevPremium, figures)
    }

    constructor (signal: BasisSignal, journal: Ledger)
      requires !signal.inPosition
      modifies signal
      ensures this.signal == signal && this.journal == journal
      ensures State() == BasisReplayAll(journal.lines, signal.p)
    {
      this.signal, this.journal := signal, journal;
      figures, prevPremium := NO_FIGURES, 0.0;
      new;
      var lines := journal.lines;
      for i := 0 to |lines|
        invariant journal.lines == lines && State() == BasisReplayAll(lines[..i], signal.p)
      {
        assert lines[..i + 1][..i] == lines[..i];
        var line := lines[i];
        if line.BasisLine? {
          ApplyStored(line.action, line.funding, line.premium, line.r);
        }
      }
      assert lines[..|lines|] == lines;
    }

    method Observe(o: BasisObservation) returns (action: Action)
      modifies this, signal, journal
      ensures (State(), action)
          == (BasisObserved(old(State()), o, signal.p).0, BasisObserved(old(State()), o, signal.p).2)
      ensures journal.lines == old(journal.lines) + [BasisObserved(old(State()), o, signal.p).1]
    {
      action := signal.Decide(o.premium);
      if action == ENTER && !o.allowEntry {
        signal.inPosition := false;
        action := FLAT;
      }
      var convergence, r := 0.0, 0.0;
      match action {
        case ENTER =>
          r := -signal.p.EntryCost();
          prevPremium := o.premium;
        case HOLD =>
          convergence := prevPremium - o.premium;
          r := o.funding + convergence;
          prevPremium := o.premium;
        case EXIT =>
          r := -signal.p.ExitCost();
        case FLAT =>
      }
      Record(action, o.funding, convergence, r);
      journal.Append(BasisLine(o.ts, action, o.funding, r, o.premium));
    }

    method Record(action: Action, funding: real, convergence: real, r: real)
      modifies this`figures
      ensures figures == Applied(old(figures), action, funding, convergence, r, signal.p.EntryCost(),
                                 signal.p.ExitCost())
    {
      match action {
        case ENTER =>
          figures := figures.(entries := figures.entries + 1, costs := figures.costs + signal.p.EntryCost());
        case HOLD =>
          figures := figures.(holds := figures.holds + 1, funding := figures.funding + funding,
                              convergence := figures.convergence + convergence);
        case EXIT =>
          figures := figures.(exits := figures.exits + 1, costs := figures.costs + signal.p.ExitCost());
        case FLAT =>
      }
      figures := figures.(equity := Times(figures.equity, 1.0 + r), rets := figures.rets + [r]);
    }

    method ApplyStored(action: Action, funding: real, premium: real, r: real)
      modifies this, signal
      ensures forall ts :: State() == BasisReplayed(old(State()), BasisLine(ts, action, funding, r, premium), signal.p)
    {
      var convergence := if action == HOLD then r - funding else 0.0;
      Record(action, funding, convergence, r);
      signal.inPosition := InPosition(action);
      if signal.inPosition {
        prevPremium := premium;
      }
    }
  }

  datatype BasisHappening = BasisObserve(o: BasisObservation) | BasisRestart | BasisForeign

  ghost function BasisLived(hs: seq<BasisHappening>, p: BasisParams): (BasisState, seq<Line>) {
    if hs == [] then (NEW_BASIS, [])
    else
      var (b, lines) := BasisLived(hs[..|hs| - 1], p);
      match hs[|hs| - 1]
      case BasisObserve(o) => (BasisObserved(b, o, p).0, lines + [BasisObserved(b, o, p).1])
      case BasisRestart => (BasisReplayAll(lines, p), lines)
      case BasisForeign => (b, lines + [OtherLine])
  }

  ghost function BasisNeverRestarted(hs: seq<BasisHappening>, p: BasisParams): BasisState {
    if hs == [] then NEW_BASIS
    else
      var b := BasisNeverRestarted(hs[..|hs| - 1], p);
      if hs[|hs| - 1].BasisObserve? then BasisObserved(b, hs[|hs| - 1].o, p).0 else b
  }

  lemma BasisReplayIsFaithful(b: BasisState, o: BasisObservation, p: BasisParams)
    ensures BasisReplayed(b, BasisObserved(b, o, p).1, p) == BasisObserved(b, o, p).0
    ensures BasisReplayed(b, OtherLine, p) == b
  {
  }

  lemma BasisReplayAppend(lines: seq<Line>, line: Line, p: BasisParams)
    ensures BasisReplayAll(lines + [line], p) == BasisReplayed(BasisReplayAll(lines, p), line, p)
  {
    assert (lines + [line])[..|lines|] == lines;
  }

  lemma {:induction false} BasisRestartsDoNotMatter(hs: seq<BasisHappening>, p: BasisParams)
    ensures BasisLived(hs, p).0 == BasisNeverRestarted(hs, p)
    ensures BasisLived(hs, p).0 == BasisReplayAll(BasisLived(hs, p).1, p)
  {
    hide BasisObserved, BasisReplayed;
    if hs != [] {
      var front := hs[..|hs| - 1];
      BasisRestartsDoNotMatter(front, p);
      var (b, lines) := BasisLived(front, p);
      match hs[|hs| - 1]
      case BasisObserve(o) =>
        BasisReplayAppend(lines, BasisObserved(b, o, p).1, p);
        BasisReplayIsFaithful(b, o, p);
      case BasisRestart =>
      case BasisForeign =>
        BasisReplayAppend(lines, OtherLine, p);
        BasisReplayIsFaithful(b, BasisObservation(0.0, 0.0, 0, true), p);
    }
  }

  // ---- pnl_decomposition.py ---------------------------------------------------------------------------

  datatype PnlBreakdown = PnlBreakdown(funding: real, convergence: real, entryFees: real, exitFees: real,
                                       slippage: real, hedgeDrift: real, nIntervals: int, nHold: int) {
    function Gross(): real {
      funding + convergence
    }

    function Costs(): real {
      entryFees + exitFees + slippage + hedgeDrift
    }

    function Net(): real {
      Gross() + Costs()
    }
  }

  function Counted(b: PnlBreakdown, line: Line): PnlBreakdown {
    if line.OtherLine? then b
    else
      var c := b.(nIntervals := b.nIntervals + 1);
      match line.action
      case ENTER => c.(entryFees := b.entryFees + line.r)
      case EXIT => c.(exitFees := b.exitFees + line.r)
      case HOLD => c.(nHold := b.nHold + 1, funding := b.funding + line.funding,
                      convergence := b.convergence + (line.r - line.funding))
      case FLAT => c
  }

  const ZERO := PnlBreakdown(0.0, 0.0, 0.0, 0.0, 0.0, 0.0, 0, 0)

  function Breakdown(lines: seq<Line>): PnlBreakdown {
    if lines == [] then ZERO else Counted(Breakdown(lines[..|lines| - 1]), lines[|lines| - 1])
  }

  method Decompose(lines: seq<Line>) returns (b: PnlBreakdown)
    ensures b == Breakdown(lines)
  {
    var funding, convergence, entryFees, exitFees := 0.0, 0.0, 0.0, 0.0;
    var n, nHold := 0, 0;
    for i := 0 to |lines|
      invariant PnlBreakdown(funding, convergence, entryFees, exitFees, 0.0, 0.0, n, nHold) == Breakdown(lines[..i])
    {
      assert lines[..i + 1][..i] == lines[..i];
      var line := lines[i];
      if !line.OtherLine? {
        n := n + 1;
        match line.action {
          case ENTER => entryFees := entryFees + line.r;
          case EXIT => exitFees := exitFees + line.r;
          case HOLD =>
            nHold := nHold + 1;
            funding := funding + line.funding;
            convergence := convergence + (line.r - line.funding);
          case FLAT =>
        }
      }
    }
    assert lines[..|lines|] == lines;
    return PnlBreakdown(funding, convergence, entryFees, exitFees, 0.0, 0.0, n, nHold);
  }

  function Compound(rs: seq<real>): real {
    if rs == [] then 1.0 else Times(Compound(rs[..|rs| - 1]), 1.0 + rs[|rs| - 1])
  }

  /** The analysis of a ledger is the book's own accounts: same funding and convergence,
      fees the negated costs entry by entry and exit by exit, and the net is the sum of
      the book's returns. */
  ghost predicate Reconciles(b: PnlBreakdown, x: Figures, entryCost: real, exitCost: real) {
    && b.funding == x.funding && b.convergence == x.convergence
    && b.entryFees == -Times(x.entries as real, entryCost) && b.exitFees == -Times(x.exits as real, exitCost)
    && b.entryFees + b.exitFees == -x.costs
    && b.slippage == 0.0 && b.hedgeDrift == 0.0
    && b.nHold == x.holds && b.nIntervals == |x.rets|
    && b.Net() == Total(x.rets)
    && x.equity == Compound(x.rets)
  }

  lemma ReconcilesStart(entryCost: real, exitCost: real)
    ensures Reconciles(ZERO, NO_FIGURES, entryCost, exitCost)
  {
    TimesNext(0, entryCost);
    TimesNext(0, exitCost);
  }

  lemma ReconcilesStep(b: PnlBreakdown, x: Figures, line: Line, convergence: real, entryCost: real, exitCost: real)
    requires Reconciles(b, x, entryCost, exitCost) && !line.OtherLine?
    requires match line.action
      case ENTER => line.r == -entryCost
      case HOLD => line.r == line.funding + convergence
      case EXIT => line.r == -exitCost
      case FLAT => line.r == 0.0
    ensures Reconciles(Counted(b, line),
                       Applied(x, line.action, line.funding, convergence, line.r, entryCost, exitCost),
                       entryCost, exitCost)
  {
    hide Times, Total, Compound;
    TimesNext(x.entries, entryCost);
    TimesNext(x.exits, exitCost);
    TotalAppend(x.rets, line.r);
    CompoundAppend(x.rets, line.r);
  }

  lemma CompoundAppend(rs: seq<real>, r: real)
    ensures Compound(rs + [r]) == Times(Compound(rs), 1.0 + r)
  {
    assert (rs + [r])[..|rs|] == rs;
  }

  lemma BreakdownAppend(lines: seq<Line>, line: Line)
    ensures Breakdown(lines + [line]) == Counted(Breakdown(lines), line)
  {
    assert (lines + [line])[..|lines|] == lines;
  }

  lemma {:induction false} ShadowLedgerReconciles(hs: seq<Happening>, p: CarryParams, k: int)
    ensures var (b, lines) := Lived(hs, p, k); Reconciles(Breakdown(lines), b.figures, p.EntryCost(), p.ExitCost())
  {
    hide Reconciles, Applied, ReplayAll, Decided, CarryParams.EntryCost, CarryParams.ExitCost;
    if hs == [] {
      ReconcilesStart(p.EntryCost(), p.ExitCost());
    } else {
      ShadowLedgerReconciles(hs[..|hs| - 1], p, k);
      RestartsDoNotMatter(hs[..|hs| - 1], p, k);
      var (b, lines) := Lived(hs[..|hs| - 1], p, k);
      match hs[|hs| - 1]
      case Observe(o) =>
        var line := Observed(b, o, p, k).1;
        BreakdownAppend(lines, line);
        ReconcilesStep(Breakdown(lines), b.figures, line, 0.0, p.EntryCost(), p.ExitCost());
      case Restart =>
      case Foreign =>
        BreakdownAppend(lines, OtherLine);
    }
  }

  lemma {:induction false} BasisLedgerReconciles(hs: seq<BasisHappening>, p: BasisParams)
    ensures var (b, lines) := BasisLived(hs, p); Reconciles(Breakdown(lines), b.figures, p.EntryCost(), p.ExitCost())
  {
    hide Reconciles, BasisReplayAll, BasisObserved, Counted, BasisParams.EntryCost, BasisParams.ExitCost;
    if hs == [] {
      ReconcilesStart(p.EntryCost(), p.ExitCost());
    } else {
      BasisLedgerReconciles(hs[..|hs| - 1], p);
      BasisRestartsDoNotMatter(hs[..|hs| - 1], p);
      var (b, lines) := BasisLived(hs[..|hs| - 1], p);
      match hs[|hs| - 1]
      case BasisObserve(o) =>
        BreakdownAppend(lines, BasisObserved(b, o, p).1);
        BasisObservationReconciles(Breakdown(lines), b, o, p);
      case BasisRestart =>
      case BasisForeign =>
        BreakdownAppend(lines, OtherLine);
        CountedSkips(Breakdown(lines));
    }
  }

  lemma CountedSkips(d: PnlBreakdown)
    ensures Counted(d, OtherLine) == d
  {
  }

  lemma BasisObservationReconciles(d: PnlBreakdown, b: BasisState, o: BasisObservation, p: BasisParams)
    requires Reconciles(d, b.figures, p.EntryCost(), p.ExitCost())
    ensures var (after, line, _) := BasisObserved(b, o, p);
      Reconciles(Counted(d, line), after.figures, p.EntryCost(), p.ExitCost())
  {
    hide Reconciles, Applied, Counted, BasisParams.EntryCost, BasisParams.ExitCost;
    var line := BasisObserved(b, o, p).1;
    ReconcilesStep(d, b.figures, line, if line.action == HOLD then b.prevPremium - o.premium else 0.0,
                   p.EntryCost(), p.ExitCost());
  }
}
