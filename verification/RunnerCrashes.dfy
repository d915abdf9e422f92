/** A runner's whole life: ticks, crashes and restarts from the journal, in any order.  A
    crash may fall between any two durable writes of a tick, so a fill may be in the ledger
    and in no checkpoint, and a trip may be lost.  What becomes of the breaker and of the
    anchor is proved here, whatever the ticks' clock says after a restart. */
module RunnerCrashes {
  import opened Sums
  import opened Wrappers
  import opened Trading
  import opened Policy
  import opened Runner
  import opened RunnerSafety

  // ---- the durable writes of a tick ---------------------------------------------------------------

  datatype Write = Append(deal: Deal) | Save(c: Checkpoint)

  function SettleWrites(r: Setup, s: State, d: Decision, t: Tick): seq<Write> {
    var f := FillFor(r.executor, r.round6, d.intent, t);
    var after := Settled(r, s, d, t);
    if !r.journaled || Applied(s.wallet, f).None? || after.saved == [] then []
    else [Append(Deal(d, f)), Save(after.saved[|after.saved| - 1])]
  }

  function OpenWrites(r: Setup, s: State, t: Tick): seq<Write> {
    if s.pending.Some? then SettleWrites(r, s.(pending := None), s.pending.value, t) else []
  }

  function DecideWrites(r: Setup, s: State, m: Moment): seq<Write> {
    match m.proposal
    case None => []
    case Some(i) =>
      var (ruled, v) := Ruled(r, s, m.tick, i);
      if v != ALLOW then
        if r.journaled && ruled.engine.tripped
        then [Save(Checkpoint(m.tick.ts, ruled.engine, SnapshotOf(ruled.wallet)))]
        else []
      else if r.delay <= 0 then SettleWrites(r, ruled, Decision(i, m.tick), m.tick)
      else []
  }

  /** Everything a tick writes, in the order it is written. */
  function TickWrites(r: Setup, s: State, m: Moment): seq<Write> {
    OpenWrites(r, s, m.tick) + DecideWrites(r, Opened(r, s, m.tick), m)
  }

  function Saves(ws: seq<Write>): seq<Checkpoint> {
    if ws == [] then [] else (if ws[0].Save? then [ws[0].c] else []) + Saves(ws[1..])
  }

  /** A fill the ledger holds; kept when a checkpoint followed, torn when none did. */
  datatype Entry = Entry(deal: Deal, kept: bool)

  function EntriesOf(ws: seq<Write>): seq<Entry> {
    if ws == [] then [] else (if ws[0].Append? then [Entry(ws[0].deal, |ws| > 1)] else []) + EntriesOf(ws[1..])
  }

  /** All fills of a history. */
  function Every(h: seq<Entry>): seq<Deal> {
    if h == [] then [] else Every(h[..|h| - 1]) + [h[|h| - 1].deal]
  }

  function Kept(h: seq<Entry>): seq<Deal> {
    if h == [] then [] else Kept(h[..|h| - 1]) + if h[|h| - 1].kept then [h[|h| - 1].deal] else []
  }

  function Torn(h: seq<Entry>): seq<Deal> {
    if h == [] then [] else Torn(h[..|h| - 1]) + if h[|h| - 1].kept then [] else [h[|h| - 1].deal]
  }

  // ---- lives ------------------------------------------------------------------------------------------

  /** The state of the process with the history of every fill the ledger ever got. */
  datatype Life = Life(s: State, history: seq<Entry>)

  /** A tick; a crash between ticks; or a crash inside one, after its first k writes. */
  datatype Happening = Ticked(m: Moment) | CrashedBetween | Died(m: Moment, k: nat)

  /** The process starts again from what is on disk; nothing is pending any more.  Without a
      checkpoint it starts with a new engine and the wallet it had, which never changed. */
  function Restarted(s: State): State {
    if s.saved == [] then s.(engine := NEW_ENGINE, pending := None)
    else
      var c := s.saved[|s.saved| - 1];
      if QUOTE_KEY !in c.wallet.entries then s.(pending := None)    // no snapshot is like that
      else s.(engine := c.engine, wallet := FromSnapshot(c.wallet), pending := None)
  }

  /** The last state whose checkpoints are all among the first k writes of the tick. */
  function LastWhole(r: Setup, s: State, m: Moment, k: nat): State {
    if k < |OpenWrites(r, s, m.tick)| then s
    else if k < |TickWrites(r, s, m)| then Opened(r, s, m.tick)
    else Stepped(r, s, m)
  }

  function FirstOf(ws: seq<Write>, k: nat): seq<Write> {
    if k < |ws| then ws[..k] else ws
  }

  /** What the process that died after k writes of the tick leaves on disk. */
  function OnDisk(r: Setup, s: State, m: Moment, k: nat): State {
    LastWhole(r, s, m, k).(ledger := s.ledger + Fills(Every(EntriesOf(FirstOf(TickWrites(r, s, m), k)))))
  }

  function Happened(r: Setup, l: Life, h: Happening): Life {
    match h
    case Ticked(m) => Life(Stepped(r, l.s, m), l.history + EntriesOf(TickWrites(r, l.s, m)))
    case CrashedBetween => Life(Restarted(l.s), l.history)
    case Died(m, k) => Life(Restarted(OnDisk(r, l.s, m, k)), l.history + EntriesOf(FirstOf(TickWrites(r, l.s, m), k)))
  }

  function Lived(r: Setup, w: Wallet, hs: seq<Happening>): Life {
    if hs == [] then Life(Fresh(NEW_ENGINE, w), []) else Happened(r, Lived(r, w, hs[..|hs| - 1]), hs[|hs| - 1])
  }

  // ---- the writes are the tick's ------------------------------------------------------------------------

  lemma SettleWritesAre(r: Setup, s: State, d: Decision, t: Tick)
    requires r.journaled
    ensures var ws, after := SettleWrites(r, s, d, t), Settled(r, s, d, t);
      && after.saved == s.saved + Saves(ws) && after.deals == s.deals + Kept(EntriesOf(ws))
      && after.ledger == s.ledger + Fills(Every(EntriesOf(ws))) && after.pending == s.pending
      && (ws == [] || (|ws| == 2 && ws[0] == Append(Deal(d, FillFor(r.executor, r.round6, d.intent, t)))
                       && ws[1].Save?))
      && (ws == [] ==> after.wallet == s.wallet && after.engine == s.engine)
  {
    hide FillFor, SnapshotOf, Registered, Applied, Wallet.EquityAt, EntriesOf, Saves, Kept, Every, Fills, Times;
    var ws, after := SettleWrites(r, s, d, t), Settled(r, s, d, t);
    NothingWritten();
    if ws != [] {
      assert ws == [ws[0], ws[1]] + [];
      FillThenSaves(ws[0].deal, ws[1].c, []);
      OneEntry(Entry(ws[0].deal, true));
    }
  }

  lemma NothingWritten()
    ensures EntriesOf([]) == [] && Saves([]) == [] && Kept([]) == [] && Every([]) == [] && Fills([]) == []
  {
  }

  /** One fill, its checkpoint, and other checkpoints. */
  lemma FillThenSaves(d: Deal, c: Checkpoint, rest: seq<Write>)
    requires forall i :: 0 <= i < |rest| ==> rest[i].Save?
    ensures var ws := [Append(d), Save(c)] + rest;
      EntriesOf(ws) == [Entry(d, true)] && Saves(ws) == [c] + Saves(rest) && OneFillFirst(ws)
  {
    var ws := [Append(d), Save(c)] + rest;
    OnlySaves(rest);
    assert ws[1..] == [Save(c)] + rest && ws[1..][1..] == rest;
    assert Saves(ws[1..]) == [c] + Saves(rest) && EntriesOf(ws[1..]) == [];
  }

  lemma OneEntry(e: Entry)
    ensures Every([e]) == [e.deal] && Fills(Every([e])) == [e.deal.fill]
    ensures Kept([e]) == if e.kept then [e.deal] else []
    ensures Torn([e]) == if e.kept then [] else [e.deal]
  {
    assert [e][..0] == [] && [e.deal][..0] == [];
  }

  /** A tick appends at most one fill, first of all, and a checkpoint follows it. */
  ghost predicate OneFillFirst(ws: seq<Write>) {
    && (forall i :: 1 <= i < |ws| ==> ws[i].Save?)
    && (ws != [] && ws[0].Append? ==> |ws| >= 2)
  }

  lemma {:induction false} OnlySaves(ws: seq<Write>)
    requires forall i :: 0 <= i < |ws| ==> ws[i].Save?
    ensures EntriesOf(ws) == []
  {
    if ws != [] {
      OnlySaves(ws[1..]);
    }
  }

  lemma EntriesOfFirst(ws: seq<Write>, k: nat)
    requires OneFillFirst(ws)
    ensures EntriesOf(FirstOf(ws, k))
         == if k > 0 && ws != [] && ws[0].Append? then [Entry(ws[0].deal, k > 1)] else []
  {
    var first := FirstOf(ws, k);
    if first != [] {
      OnlySaves(first[1..]);
    }
  }

  lemma {:induction false} SavesConcat(a: seq<Write>, b: seq<Write>)
    ensures Saves(a + b) == Saves(a) + Saves(b)
  {
    if a == [] {
      assert a + b == b;
    } else {
      SavesConcat(a[1..], b);
      var ab := a + b;
      assert ab[0] == a[0] && ab[1..] == a[1..] + b;
      var one := if a[0].Save? then [a[0].c] else [];
      assert one + (Saves(a[1..]) + Saves(b)) == (one + Saves(a[1..])) + Saves(b);
    }
  }

  lemma DecideWritesAre(r: Setup, s: State, m: Moment)
    requires r.journaled && s.pending.None?
    ensures var ws, after := DecideWrites(r, s, m), Decided(r, s, m);
      && after.saved == s.saved + Saves(ws) && after.deals == s.deals + Kept(EntriesOf(ws))
      && after.ledger == s.ledger + Fills(Every(EntriesOf(ws))) && OneFillFirst(ws)
      && |ws| <= 2 && (|ws| == 2 ==> ws[0].Append?)
      && (ws != [] && ws[0].Append? ==>
            && r.delay <= 0 && m.proposal.Some? && Ruled(r, s, m.tick, m.proposal.value).1 == ALLOW
            && ws[0].deal.decision == Decision(m.proposal.value, m.tick) && ws[0].deal.fill.ts == m.tick.ts)
  {
    hide Settled, Ruled, SnapshotOf, SettleWrites;
    if m.proposal.Some? {
      var (ruled, v) := Ruled(r, s, m.tick, m.proposal.value);
      RulingOnlyRules(r, s, m.tick, m.proposal.value);
      SettleWritesAre(r, ruled, Decision(m.proposal.value, m.tick), m.tick);
      var ws := DecideWrites(r, s, m);
      if v != ALLOW && ws != [] {
        assert ws[1..] == [] && Saves(ws[1..]) == [] && EntriesOf(ws[1..]) == [];
      }
    }
  }

  lemma FillIsNow(r: Setup, d: Decision, t: Tick)
    ensures FillFor(r.executor, r.round6, d.intent, t).ts == t.ts
  {
  }

  lemma OpenWritesAre(r: Setup, s: State, t: Tick)
    requires r.journaled
    ensures var open, settled := OpenWrites(r, s, t), Opened(r, s, t);
      && settled.saved == s.saved + Saves(open) && settled.deals == s.deals + Kept(EntriesOf(open))
      && settled.ledger == s.ledger + Fills(Every(EntriesOf(open))) && settled.pending.None?
      && (open == [] || (|open| == 2 && open[0].Append? && open[1].Save?))
      && (open != [] ==>
            s.pending.Some? && open[0].deal.decision == s.pending.value && open[0].deal.fill.ts == t.ts)
  {
    hide Settled, SettleWrites, FillFor;
    NothingWritten();
    if s.pending.Some? {
      SettleWritesAre(r, s.(pending := None), s.pending.value, t);
      FillIsNow(r, s.pending.value, t);
    }
  }

  /** Without a delay nothing is ever left pending. */
  predicate Prompt(r: Setup, s: State) {
    r.delay <= 0 ==> s.pending.None?
  }

  /** The writes of a tick: what the step function says they are, and at most one fill. */
  lemma TickWritesAre(r: Setup, s: State, m: Moment)
    requires r.journaled && Prompt(r, s)
    ensures var ws, after := TickWrites(r, s, m), Stepped(r, s, m);
      && after.saved == s.saved + Saves(ws) && after.deals == s.deals + Kept(EntriesOf(ws))
      && after.ledger == s.ledger + Fills(Every(EntriesOf(ws))) && OneFillFirst(ws)
      && (ws != [] && ws[0].Append? ==>
            && ws[0].deal.fill.ts == m.tick.ts
            && (if OpenWrites(r, s, m.tick) != []
                then s.pending.Some? && ws[0].deal.decision == s.pending.value
                else && r.delay <= 0 && m.proposal.Some?
                     && ws[0].deal.decision == Decision(m.proposal.value, m.tick)
                     && Ruled(r, Opened(r, s, m.tick), m.tick, m.proposal.value).1 == ALLOW))
      && (if OpenWrites(r, s, m.tick) == [] then |ws| <= 2 && (|ws| == 2 ==> ws[0].Append?)
          else |ws| <= 3 && OpenWrites(r, s, m.tick) <= ws)
  {
    hide Settled, Opened, Decided, DecideWrites, SettleWrites, OpenWrites, Ruled, EntriesOf, Saves, Every, Fills;
    NothingWritten();
    var open, settled := OpenWrites(r, s, m.tick), Opened(r, s, m.tick);
    OpenWritesAre(r, s, m.tick);
    DecideWritesAre(r, settled, m);
    var rest := DecideWrites(r, settled, m);
    SavesConcat(open, rest);
    if open != [] {
      assert open + rest == [Append(open[0].deal), Save(open[1].c)] + rest;
      assert open == [Append(open[0].deal), Save(open[1].c)] + [];
      FillThenSaves(open[0].deal, open[1].c, rest);
      FillThenSaves(open[0].deal, open[1].c, []);
      OnlySaves(rest);
    } else {
      assert open + rest == rest;
    }
  }

  // ---- what holds after every happening, whatever the clock says ---------------------------------------

  /** Whatever can be trusted of a process and its disk: there is a checkpoint exactly when
      something filled for good or the breaker tripped, and the last one has the anchor, the
      latch and the balances. */
  ghost predicate Guarded(r: Setup, s: State) {
    && Latched(r, s) && AnchoredBefore(s) && Prompt(r, s)
    && (s.saved != [] <==> s.deals != [] || s.engine.tripped)
    && (s.saved != [] ==>
          var c := s.saved[|s.saved| - 1];
          && c.engine.starting == s.engine.starting && c.engine.tripped == s.engine.tripped
          && c.wallet == SnapshotOf(s.wallet))
  }

  lemma SettlingIsGuarded(r: Setup, s: State, d: Decision, t: Tick)
    requires r.journaled && Guarded(r, s) && s.pending.None? && s.engine.starting.Some? && !s.engine.tripped
    ensures Guarded(r, Settled(r, s, d, t)) && Settled(r, s, d, t).pending.None?
    ensures Settled(r, s, d, t).engine.starting == s.engine.starting && !Settled(r, s, d, t).engine.tripped
  {
    hide Applied, FillFor, SnapshotOf, Times;
  }

  lemma OpeningIsGuarded(r: Setup, s: State, t: Tick)
    requires r.journaled && Guarded(r, s)
    ensures var settled := Opened(r, s, t);
      && Guarded(r, settled) && settled.pending.None?
      && settled.engine.starting == s.engine.starting && settled.engine.tripped == s.engine.tripped
      && (s.pending.None? ==> settled == s)
  {
    hide Settled, SnapshotOf;
    if s.pending.Some? {
      SettlingIsGuarded(r, s.(pending := None), s.pending.value, t);
    }
  }

  lemma DecidingIsGuarded(r: Setup, s: State, m: Moment)
    requires r.journaled && Guarded(r, s) && s.pending.None?
    ensures Guarded(r, Decided(r, s, m))
    ensures s.engine.starting.Some? ==> Decided(r, s, m).engine.starting == s.engine.starting
    ensures s.engine.tripped ==> Decided(r, s, m).engine.tripped
  {
    hide Settled, Ruled, SnapshotOf;
    if m.proposal.Some? {
      var i, t := m.proposal.value, m.tick;
      var (ruled, v) := Ruled(r, s, t, i);
      RulingLatches(r, s, t, i);
      RulingOnlyRules(r, s, t, i);
      if v == ALLOW {
        SettlingIsGuarded(r, ruled, Decision(i, t), t);
      }
    }
  }

  lemma TickIsGuarded(r: Setup, s: State, m: Moment)
    requires r.journaled && Guarded(r, s)
    ensures Guarded(r, Stepped(r, s, m))
    ensures s.engine.starting.Some? ==> Stepped(r, s, m).engine.starting == s.engine.starting
  {
    hide Guarded, Opened, Decided;
    OpeningIsGuarded(r, s, m.tick);
    DecidingIsGuarded(r, Opened(r, s, m.tick), m);
  }

  lemma SnapshotAgain(w: Wallet)
    ensures QUOTE_KEY in SnapshotOf(w).entries
    ensures SnapshotOf(FromSnapshot(SnapshotOf(w))) == SnapshotOf(w)
  {
    var entries := SnapshotOf(w).entries;
    assert SnapshotOf(FromSnapshot(SnapshotOf(w))).entries == entries;
  }

  lemma RestartIsGuarded(r: Setup, s: State)
    requires Guarded(r, s)
    ensures var again := Restarted(s);
      && Guarded(r, again)
      && again.deals == s.deals && again.saved == s.saved && again.ledger == s.ledger && again.pending.None?
      && (s.saved == [] ==> again.engine == NEW_ENGINE)
      && (s.saved != [] ==>
            && again.engine.starting == s.engine.starting && again.engine.tripped == s.engine.tripped
            && SnapshotOf(again.wallet) == SnapshotOf(s.wallet))
  {
    hide SnapshotOf, FromSnapshot;
    SnapshotAgain(s.wallet);
  }

  /** On disk after k writes: the checkpoints and the kept fill of those writes. */
  lemma LastWholeIs(r: Setup, s: State, m: Moment, k: nat)
    requires r.journaled && Prompt(r, s)
    ensures var first := FirstOf(TickWrites(r, s, m), k);
      && LastWhole(r, s, m, k).deals == s.deals + Kept(EntriesOf(first))
      && LastWhole(r, s, m, k).saved == s.saved + Saves(first)
  {
    hide Stepped, Opened, TickWrites, OpenWrites, OneFillFirst, Saves, EntriesOf, Kept, Ruled;
    TickWritesAre(r, s, m);
    OpenWritesAre(r, s, m.tick);
    var open, ws := OpenWrites(r, s, m.tick), TickWrites(r, s, m);
    var first := FirstOf(ws, k);
    if k >= |ws| {
      assert first == ws;
    } else if open != [] && k >= 2 {
      assert first == open;
    } else {
      NothingKept(ws, k);
      NothingAt(open);
    }
  }

  /** One write in, at most a torn fill. */
  lemma NothingKept(ws: seq<Write>, k: nat)
    requires k < |ws| && k <= 1 && (k == 1 ==> ws[0].Append?)
    ensures Kept(EntriesOf(FirstOf(ws, k))) == [] && Saves(FirstOf(ws, k)) == []
  {
    if k == 1 {
      var first := FirstOf(ws, k);
      assert first == [ws[0]] && first[1..] == [];
      assert EntriesOf(first) == [Entry(ws[0].deal, false)] + EntriesOf(first[1..]);
      assert EntriesOf(first) == [Entry(ws[0].deal, false)];
      OneEntry(Entry(ws[0].deal, false));
    }
  }

  lemma NothingAt(ws: seq<Write>)
    ensures ws == [] ==> Kept(EntriesOf(ws)) == [] && Saves(ws) == []
  {
  }

  /** Whatever the process had written when it died, it restarts guarded. */
  lemma DeathIsGuarded(r: Setup, s: State, m: Moment, k: nat)
    requires r.journaled && Guarded(r, s)
    ensures var whole, again := LastWhole(r, s, m, k), Restarted(OnDisk(r, s, m, k));
      && Guarded(r, whole) && Guarded(r, again)
      && again.deals == whole.deals && again.saved == whole.saved && again.ledger == OnDisk(r, s, m, k).ledger
      && again.pending.None?
      && (whole.saved == [] ==> again.engine == NEW_ENGINE)
      && (whole.saved != []
          ==> again.engine.starting == whole.engine.starting && again.engine.tripped == whole.engine.tripped)
  {
    hide Stepped, Opened, TickWrites, OpenWrites, Restarted, Fills, EntriesOf, Latched, SnapshotOf;
    OpeningIsGuarded(r, s, m.tick);
    TickIsGuarded(r, s, m);
    GuardedWithLedger(r, LastWhole(r, s, m, k), OnDisk(r, s, m, k).ledger);
    RestartIsGuarded(r, OnDisk(r, s, m, k));
  }

  lemma GuardedWithLedger(r: Setup, s: State, ledger: seq<Fill>)
    requires Guarded(r, s)
    ensures Guarded(r, s.(ledger := ledger))
  {
  }

  lemma HappeningIsGuarded(r: Setup, l: Life, h: Happening)
    requires r.journaled && Guarded(r, l.s)
    ensures Guarded(r, Happened(r, l, h).s)
  {
    hide Stepped, OnDisk, Restarted, Guarded, EntriesOf, TickWrites;
    match h {
      case Ticked(m) => TickIsGuarded(r, l.s, m);
      case CrashedBetween => RestartIsGuarded(r, l.s);
      case Died(m, k) => DeathIsGuarded(r, l.s, m, k);
    }
  }

  lemma {:induction false} LifeIsGuarded(r: Setup, w: Wallet, hs: seq<Happening>)
    requires r.journaled
    ensures Guarded(r, Lived(r, w, hs).s)
  {
    hide Happened;
    if hs != [] {
      LifeIsGuarded(r, w, hs[..|hs| - 1]);
      HappeningIsGuarded(r, Lived(r, w, hs[..|hs| - 1]), hs[|hs| - 1]);
    }
  }

  // ---- the breaker ------------------------------------------------------------------------------------------

  /** A trip the process lives to the end of survives every crash after it, whatever the clock
      says after a restart: from then on nothing fills, and the breaker is tripped in memory
      and on disk. */
  lemma {:induction false} TripSurvives(r: Setup, w: Wallet, hs: seq<Happening>, n: nat)
    requires r.journaled && n <= |hs| && Lived(r, w, hs[..n]).s.engine.tripped
    ensures var l := Lived(r, w, hs);
      && l.s.engine.tripped && l.history == Lived(r, w, hs[..n]).history && l.s.pending.None?
      && l.s.saved != [] && l.s.saved[|l.s.saved| - 1].engine.tripped
    decreases |hs|
  {
    hide Happened;
    LifeIsGuarded(r, w, hs);
    if n == |hs| {
      assert hs[..n] == hs;
    } else {
      var init, h := hs[..|hs| - 1], hs[|hs| - 1];
      assert init[..n] == hs[..n];
      TripSurvives(r, w, init, n);
      LifeIsGuarded(r, w, init);
      HappeningKeepsTrip(r, Lived(r, w, init), h);
    }
  }

  lemma HappeningKeepsTrip(r: Setup, l: Life, h: Happening)
    requires r.journaled && Guarded(r, l.s) && l.s.engine.tripped
    ensures Happened(r, l, h).s.engine.tripped && Happened(r, l, h).history == l.history
  {
    hide Stepped, Opened, OnDisk, Restarted, EntriesOf, TickWrites, FirstOf, OpenWrites, SnapshotOf;
    match h {
      case Ticked(m) =>
        StepWhileTripped(r, l.s, m);
        WritesWhileTripped(r, l.s, m, |TickWrites(r, l.s, m)|);
      case CrashedBetween =>
        RestartIsGuarded(r, l.s);
      case Died(m, k) =>
        StepWhileTripped(r, l.s, m);
        OpeningIsGuarded(r, l.s, m.tick);
        DeathIsGuarded(r, l.s, m, k);
        WritesWhileTripped(r, l.s, m, k);
    }
  }

  lemma WritesWhileTripped(r: Setup, s: State, m: Moment, k: nat)
    requires r.journaled && Guarded(r, s) && s.engine.tripped
    ensures EntriesOf(FirstOf(TickWrites(r, s, m), k)) == []
    ensures EntriesOf(TickWrites(r, s, m)) == []
  {
    hide Stepped, Saves, Opened, Ruled, SettleWrites, Settled, SnapshotOf;
    OpeningIsGuarded(r, s, m.tick);
    if m.proposal.Some? {
      RulingLatches(r, s, m.tick, m.proposal.value);
    }
    var ws := TickWrites(r, s, m);
    assert OpenWrites(r, s, m.tick) == [] && ws == DecideWrites(r, s, m);
    OnlySaves(ws);
    OnlySaves(FirstOf(ws, k));
  }

  lemma DeathKeepsTripIff(r: Setup, l: Life, m: Moment, k: nat)
    requires r.journaled && Guarded(r, l.s) && !l.s.engine.tripped && Stepped(r, l.s, m).engine.tripped
    ensures Happened(r, l, Died(m, k)).s.engine.tripped <==> k >= |TickWrites(r, l.s, m)|
    ensures TickWrites(r, l.s, m) != []
  {
    hide Stepped, Opened, Restarted, EntriesOf, TickWrites, OpenWrites, FirstOf, Saves, Kept, SnapshotOf;
    OpeningIsGuarded(r, l.s, m.tick);
    DeathIsGuarded(r, l.s, m, k);
    TrippingIsWritten(r, l.s, m);
  }

  /** A process that dies inside the tick that trips the breaker, whatever life came before,
      comes back tripped exactly when the tick's last write, the checkpoint of the trip, was
      made. */
  lemma TripSurvivesIff(r: Setup, w: Wallet, hs: seq<Happening>, m: Moment, k: nat)
    requires r.journaled
    requires !Lived(r, w, hs).s.engine.tripped && Stepped(r, Lived(r, w, hs).s, m).engine.tripped
    ensures TickWrites(r, Lived(r, w, hs).s, m) != []
    ensures Lived(r, w, hs + [Died(m, k)]).s.engine.tripped <==> k >= |TickWrites(r, Lived(r, w, hs).s, m)|
  {
    hide Happened, Stepped, TickWrites, Guarded;
    assert (hs + [Died(m, k)])[..|hs|] == hs;
    LifeIsGuarded(r, w, hs);
    DeathKeepsTripIff(r, Lived(r, w, hs), m, k);
  }

  lemma TrippingIsWritten(r: Setup, s: State, m: Moment)
    requires r.journaled && Guarded(r, s) && !s.engine.tripped && Stepped(r, s, m).engine.tripped
    ensures TickWrites(r, s, m) != [] && Stepped(r, s, m).saved != []
    ensures |OpenWrites(r, s, m.tick)| <= |TickWrites(r, s, m)|
  {
    hide Opened, Guarded, Settled, SettleWrites, Ruled, OpenWrites, SnapshotOf;
    OpeningIsGuarded(r, s, m.tick);
    var settled := Opened(r, s, m.tick);
    if m.proposal.Some? {
      RulingLatches(r, settled, m.tick, m.proposal.value);
      RulingOnlyRules(r, settled, m.tick, m.proposal.value);
      SettlingKeepsLatch(r, Ruled(r, settled, m.tick, m.proposal.value).0, Decision(m.proposal.value, m.tick), m.tick);
    }
  }

  // ---- the anchor ---------------------------------------------------------------------------------------------

  /** Once the disk holds a checkpoint, because something filled for good or the breaker tripped,
      the drawdown floor is anchored for good: no crash after that moves the anchor, and no
      restarted clock. */
  lemma {:induction false} AnchorSurvives(r: Setup, w: Wallet, hs: seq<Happening>, n: nat)
    requires r.journaled && n <= |hs|
    requires Lived(r, w, hs[..n]).s.deals != [] || Lived(r, w, hs[..n]).s.engine.tripped
    ensures var s, then_ := Lived(r, w, hs).s, Lived(r, w, hs[..n]).s;
      (s.deals != [] || s.engine.tripped) && s.engine.starting.Some? && s.engine.starting == then_.engine.starting
    decreases |hs|
  {
    hide Happened;
    LifeIsGuarded(r, w, hs);
    if n == |hs| {
      assert hs[..n] == hs;
    } else {
      var init, h := hs[..|hs| - 1], hs[|hs| - 1];
      assert init[..n] == hs[..n];
      AnchorSurvives(r, w, init, n);
      LifeIsGuarded(r, w, init);
      HappeningKeepsAnchor(r, Lived(r, w, init), h);
    }
  }

  lemma HappeningAnchorIff(r: Setup, l: Life, h: Happening)
    requires r.journaled && Guarded(r, l.s) && l.s.engine.starting.Some?
    ensures var after := Happened(r, l, h).s;
      && (h.CrashedBetween? ==>
            (after.engine.starting == l.s.engine.starting <==> l.s.deals != [] || l.s.engine.tripped))
      && (h.Died? ==>
            (after.engine.starting == l.s.engine.starting
             <==> l.s.deals != [] || l.s.engine.tripped || Saves(FirstOf(TickWrites(r, l.s, h.m), h.k)) != []))
      && (h.Ticked? ==> after.engine.starting == l.s.engine.starting)
  {
    hide Stepped, Opened, Restarted, EntriesOf, TickWrites, OpenWrites, FirstOf, Saves, Kept, SnapshotOf;
    match h {
      case Ticked(m) => TickIsGuarded(r, l.s, m);
      case CrashedBetween => RestartIsGuarded(r, l.s);
      case Died(m, k) =>
        OpeningIsGuarded(r, l.s, m.tick);
        TickIsGuarded(r, l.s, m);
        DeathIsGuarded(r, l.s, m, k);
        LastWholeIs(r, l.s, m, k);
    }
  }

  /** A crash, whatever life came before it, loses the anchor exactly when the disk holds no
      checkpoint: nothing had filled for good, the breaker had not tripped, and the tick it fell
      in had not written one yet. */
  lemma AnchorSurvivesIff(r: Setup, w: Wallet, hs: seq<Happening>, h: Happening)
    requires r.journaled && Lived(r, w, hs).s.engine.starting.Some?
    ensures var s, after := Lived(r, w, hs).s, Lived(r, w, hs + [h]).s;
      && (h.Ticked? ==> after.engine.starting == s.engine.starting)
      && (h.CrashedBetween? ==>
            (after.engine.starting == s.engine.starting <==> s.deals != [] || s.engine.tripped))
      && (h.Died? ==>
            (after.engine.starting == s.engine.starting
             <==> s.deals != [] || s.engine.tripped || Saves(FirstOf(TickWrites(r, s, h.m), h.k)) != []))
  {
    hide Happened, Guarded, Saves, TickWrites, FirstOf;
    assert (hs + [h])[..|hs|] == hs;
    LifeIsGuarded(r, w, hs);
    HappeningAnchorIff(r, Lived(r, w, hs), h);
  }

  lemma HappeningKeepsAnchor(r: Setup, l: Life, h: Happening)
    requires r.journaled && Guarded(r, l.s) && (l.s.deals != [] || l.s.engine.tripped)
    ensures var after := Happened(r, l, h).s;
      after.engine.starting == l.s.engine.starting && (after.deals != [] || after.engine.tripped)
  {
    hide Stepped, Opened, OnDisk, Restarted, EntriesOf, TickWrites, OpenWrites, FirstOf, Kept, Saves, Happened,
         SnapshotOf;
    HappeningAnchorIff(r, l, h);
    DiskOnlyGrows(r, l, h);
    HappeningIsGuarded(r, l, h);
  }

  lemma DiskOnlyGrows(r: Setup, l: Life, h: Happening)
    requires r.journaled && Guarded(r, l.s)
    ensures l.s.saved <= Happened(r, l, h).s.saved
  {
    hide Stepped, Opened, LastWhole, Restarted, EntriesOf, TickWrites, OpenWrites, FirstOf, Kept, Saves, OnDisk,
         SnapshotOf, Ruled;
    match h {
      case Ticked(m) => TickWritesAre(r, l.s, m);
      case CrashedBetween => RestartIsGuarded(r, l.s);
      case Died(m, k) =>
        DeathIsGuarded(r, l.s, m, k);
        LastWholeIs(r, l.s, m, k);
    }
  }
}
