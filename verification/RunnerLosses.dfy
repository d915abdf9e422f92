/** What a crash between two durable writes can cost a runner: one concrete life for each. */
module RunnerLosses {
  import opened Sums
  import opened Wrappers
  import opened Trading
  import opened Policy
  import opened Runner
  import opened RunnerWindows
  import opened RunnerCrashes
  import opened CrashWindows

  const ASSET := "A"

  /** A breaker at half the starting equity, one fill in ten ticks or more, fills on the same tick. */
  function Plain(maxTx: int): Setup {
    Setup(Config({ASSET}, 1000.0, maxTx, 10, 0.5, 0.0, false, None, None, None, None),
          Executor(0.0, 0.0), (x: real) => x, 0, true)
  }

  function BuyAt(symbol: string, amount: real, price: real, ts: int): Moment {
    Moment(Tick(ASSET, price, ts), Some(Intent(symbol, BUY, amount, None)))
  }

  /** An intent the engine has no objection to, with nothing in its window. */
  lemma Allowed(s: State, maxTx: int, amount: real, price: real, ts: int)
    requires !s.engine.tripped && maxTx > |PrunedTs(s.engine.recent, ts - 10)|
    requires s.engine.starting.Some? ==> s.wallet.EquityAt(ASSET, price) >= Times(s.engine.starting.value, 0.5)
    requires amount >= 0.0 && price >= 0.0 && Times(amount, price) <= 1000.0 && Times(amount, price) <= s.wallet.quote
    requires s.wallet.EquityAt(ASSET, price) >= 0.0
    ensures var (ruled, v) := Ruled(Plain(maxTx), s, Tick(ASSET, price, ts), Intent(ASSET, BUY, amount, None));
      v == ALLOW && !ruled.engine.tripped
  {
    var t, i := Tick(ASSET, price, ts), Intent(ASSET, BUY, amount, None);
    hide Evaluated, Times, PrunedTs, Wallet.EquityAt, Worth, Asked;
    AllowedIff(s.engine, Plain(maxTx).cfg, i, t, s.wallet, None);
    WorthIsEquity(s.wallet, t);
    AskedIsNotional(i, t);
    HalfOf(s.wallet.EquityAt(ASSET, price));
    if s.engine.starting.Some? {
      HalfIs(s.engine.starting.value);
    }
    NoFee(Times(amount, price));
    SizeOf(amount, price);
  }

  lemma HalfIs(x: real)
    ensures Times(x, 0.5) == x * (1.0 - 0.5)
  {
  }

  lemma HalfOf(x: real)
    requires x >= 0.0
    ensures x * (1.0 - 0.5) <= x && Times(x, 1.0 - 0.5) <= x && Times(x, 1.0 - 0.5) == Times(x, 0.5)
  {
  }

  lemma NoFee(x: real)
    ensures x * (1.0 + 0.0) == x
  {
  }

  lemma SizeOf(amount: real, price: real)
    requires amount >= 0.0
    ensures Times(Abs(amount), price) == Times(amount, price)
  {
  }

  function Bought(amount: real, price: real, ts: int): Deal {
    Deal(Decision(Intent(ASSET, BUY, amount, None), Tick(ASSET, price, ts)),
         Fill(ASSET, BUY, amount, price, 0.0, ts, false))
  }

  lemma FillIs(amount: real, price: real, ts: int)
    ensures FillFor(Executor(0.0, 0.0), (x: real) => x, Intent(ASSET, BUY, amount, None), Tick(ASSET, price, ts))
         == Bought(amount, price, ts).fill
  {
    assert 1.0 + 0.0 / 10000.0 == 1.0;
    assert price * 1.0 == price && (amount * price) * 0.0 == 0.0;
  }

  /** What buying on a tick does, when nothing forbids it. */
  lemma Buys(s: State, maxTx: int, amount: real, price: real, ts: int)
    requires s.pending.None? && !s.engine.tripped && maxTx > |PrunedTs(s.engine.recent, ts - 10)|
    requires s.engine.starting.Some? ==> s.wallet.EquityAt(ASSET, price) >= Times(s.engine.starting.value, 0.5)
    requires amount >= 0.0 && price >= 0.0 && Times(amount, price) <= 1000.0 && Times(amount, price) <= s.wallet.quote
    requires s.wallet.EquityAt(ASSET, price) >= 0.0 && s.wallet.Base(ASSET) >= 0.0
    ensures var r, m := Plain(maxTx), BuyAt(ASSET, amount, price, ts);
      var after, ws := Stepped(r, s, m), TickWrites(r, s, m);
      && after.deals == s.deals + [Bought(amount, price, ts)] && after.pending.None? && !after.engine.tripped
      && after.wallet.quote == s.wallet.quote - Times(amount, price)
      && after.wallet.Base(ASSET) == s.wallet.Base(ASSET) + amount
      && after.engine.starting
           == Some(if s.engine.starting.Some? then s.engine.starting.value else s.wallet.EquityAt(ASSET, price))
      && |ws| == 2 && ws[0] == Append(Bought(amount, price, ts)) && ws[1].Save?
      && after.saved != [] && after.saved[|after.saved| - 1].engine == after.engine
      && after.saved[|after.saved| - 1].wallet == SnapshotOf(after.wallet)
      && |after.engine.recent| <= |s.engine.recent| + 1
      && after.engine.recent == PrunedTs(s.engine.recent, ts - 10) + [ts]
      && (QUOTE_KEY !in s.wallet.positions ==> QUOTE_KEY !in after.wallet.positions)
      && OpenWrites(r, s, m.tick) == [] && Opened(r, s, m.tick) == s
  {
    hide Evaluated, Times, PrunedTs, Wallet.EquityAt, FillFor, SnapshotOf;
    Allowed(s, maxTx, amount, price, ts);
    FillIs(amount, price, ts);
    PayingIsEnough(s.wallet, amount, price, ts);
    RecentShrinks(s, maxTx, amount, price, ts);
  }

  lemma PayingIsEnough(w: Wallet, amount: real, price: real, ts: int)
    requires amount >= 0.0 && Times(amount, price) <= w.quote && w.Base(ASSET) >= 0.0
    ensures var f := Bought(amount, price, ts).fill;
      && Applied(w, f).Some?
      && Applied(w, f).value.quote == w.quote - Times(amount, price)
      && Applied(w, f).value.Base(ASSET) == w.Base(ASSET) + amount
      && (QUOTE_KEY !in w.positions ==> QUOTE_KEY !in Applied(w, f).value.positions)
  {
    assert |ASSET| != |QUOTE_KEY|;
  }

  lemma LivedNext(r: Setup, w: Wallet, hs: seq<Happening>, h: Happening, start: int)
    ensures Lived(r, w, []) == Life(Fresh(NEW_ENGINE, w), []) && TimedLife([], start)
    ensures Lived(r, w, hs + [h]) == Happened(r, Lived(r, w, hs), h)
    ensures TimedLife(hs, start) && (!h.CrashedBetween? ==> NowIn(hs, start) < h.m.tick.ts)
        ==> TimedLife(hs + [h], start)
    ensures NowIn([], start) == start
    ensures NowIn(hs + [h], start) == if h.CrashedBetween? then NowIn(hs, start) else h.m.tick.ts
  {
    assert (hs + [h])[..|hs|] == hs;
  }

  lemma RecentShrinks(s: State, maxTx: int, amount: real, price: real, ts: int)
    ensures var e := Ruled(Plain(maxTx), s, Tick(ASSET, price, ts), Intent(ASSET, BUY, amount, None)).0.engine;
      && |e.recent| <= |s.engine.recent|
      && (Ruled(Plain(maxTx), s, Tick(ASSET, price, ts), Intent(ASSET, BUY, amount, None)).1 == ALLOW
          ==> e.recent == PrunedTs(s.engine.recent, ts - 10))
      && e.starting == Some(if s.engine.starting.Some? then s.engine.starting.value
                            else s.wallet.EquityAt(ASSET, price))
  {
    hide Times, Wallet.EquityAt;
    PrunedIsShorter(s.engine.recent, ts - 10);
  }

  lemma {:induction false} PrunedIsShorter(ts: seq<int>, cutoff: int)
    ensures |PrunedTs(ts, cutoff)| <= |ts|
  {
    if ts != [] && ts[0] <= cutoff {
      PrunedIsShorter(ts[1..], cutoff);
    }
  }

  /** One fill in ten ticks is allowed; a crash between the first fill's ledger line and its
      checkpoint lets a second through. */
  lemma RateLimitExceeded(w: Wallet) returns (hs: seq<Happening>)
    requires w == Wallet(1000.0, map[])
    ensures TimedLife(hs, -1) && Plain(1).cfg.maxTxPerWindow == 1
    ensures |Within(Every(Lived(Plain(1), w, hs).history), 1 - Plain(1).cfg.windowSteps, 1)| == 2
  {
    hide Stepped, TickWrites, FromSnapshot, Lived, TimedLife, NowIn, EntriesOf, Every, Within, Fills, Opened,
         OpenWrites, PrunedTs;
    var r, m0, m1 := Plain(1), BuyAt(ASSET, 1.0, 100.0, 0), BuyAt(ASSET, 1.0, 100.0, 1);
    var s0 := Fresh(NEW_ENGINE, w);
    var first := [] + [Died(m0, 1)];
    hs := first + [Ticked(m1)];
    LivedNext(r, w, [], Died(m0, 1), -1);
    LivedNext(r, w, first, Ticked(m1), -1);
    PrunedIsShorter([], -10);
    PrunedIsShorter([], -9);
    Buys(s0, 1, 1.0, 100.0, 0);
    var l1 := Lived(r, w, first);
    var e0 := Entry(Bought(1.0, 100.0, 0), false);
    TornEntry(TickWrites(r, s0, m0));
    assert l1.history == [] + [e0] == [e0];
    assert l1.s.engine == NEW_ENGINE && l1.s.wallet == w && l1.s.pending.None?;
    Buys(l1.s, 1, 1.0, 100.0, 1);
    var e1 := Entry(Bought(1.0, 100.0, 1), true);
    KeptEntry(TickWrites(r, l1.s, m1));
    var l2 := Lived(r, w, hs);
    assert l2.history == [e0, e1];
    TwoWithin(e0, e1);
  }

  lemma TornEntry(ws: seq<Write>)
    requires |ws| == 2 && ws[0].Append? && ws[1].Save?
    ensures EntriesOf(FirstOf(ws, 1)) == [Entry(ws[0].deal, false)]
  {
    var first := FirstOf(ws, 1);
    assert first == [ws[0]] && first[1..] == [];
  }

  lemma KeptEntry(ws: seq<Write>)
    requires |ws| == 2 && ws[0].Append? && ws[1].Save?
    ensures EntriesOf(ws) == [Entry(ws[0].deal, true)]
  {
    assert ws == [Append(ws[0].deal), Save(ws[1].c)] + [];
    FillThenSaves(ws[0].deal, ws[1].c, []);
  }

  lemma TwoWithin(a: Entry, b: Entry)
    requires a.deal.fill.ts == 0 && b.deal.fill.ts == 1
    ensures |Within(Every([a, b]), -9, 1)| == 2
  {
    assert [a, b][..1] == [a] && [a][..0] == [];
    assert Every([a]) == [a.deal];
    assert Every([a, b]) == [a.deal, b.deal];
    assert [a.deal, b.deal][..1] == [a.deal] && [a.deal][..0] == [];
    assert Within([a.deal], -9, 1) == [a.deal];
  }

  /** A tick trips the breaker and the process dies before the checkpoint of the trip: the
      next tick is allowed to buy. */
  lemma TripLost(w: Wallet) returns (hs: seq<Happening>)
    requires w == Wallet(1000.0, map[])
    ensures |hs| == 3 && TimedLife(hs, -1) && hs[1].Died?
    ensures Stepped(Plain(5), Lived(Plain(5), w, hs[..1]).s, hs[1].m).engine.tripped
    ensures var s := Lived(Plain(5), w, hs).s;
      !s.engine.tripped && |s.deals| == 2 && s.deals[1].fill.ts == 2
  {
    hide Stepped, TickWrites, FromSnapshot, EntriesOf, SnapshotOf, Wallet.EquityAt, Lived, TimedLife, NowIn, Opened,
         OpenWrites;
    var r := Plain(5);
    var m0, m1, m2 := BuyAt(ASSET, 9.0, 100.0, 0), BuyAt(ASSET, 1.0, 10.0, 1), BuyAt(ASSET, 1.0, 100.0, 2);
    var one := [] + [Ticked(m0)];
    var two := one + [Died(m1, 0)];
    hs := two + [Ticked(m2)];
    assert hs[..1] == one && hs[1] == Died(m1, 0);
    LivedNext(r, w, [], Ticked(m0), -1);
    LivedNext(r, w, one, Died(m1, 0), -1);
    LivedNext(r, w, two, Ticked(m2), -1);
    var s0 := Fresh(NEW_ENGINE, w);
    Marks(w);
    Sizes();
    Buys(s0, 5, 9.0, 100.0, 0);
    var s1 := Lived(r, w, one).s;
    Marks(s1.wallet);
    Trips(s1, m1);
    var s2 := Lived(r, w, two).s;
    SnapshotKeeps(s1.wallet);
    assert s2.engine == s1.engine && s2.wallet == s1.wallet && s2.deals == s1.deals;
    HalfOfThousand();
    Sizes();
    Marks(s2.wallet);
    PrunedIsShorter(s2.engine.recent, 2 - 10);
    Buys(s2, 5, 1.0, 100.0, 2);
  }

  lemma Sizes()
    ensures Times(9.0, 100.0) == 900.0 && Times(1.0, 100.0) == 100.0
  {
  }

  lemma SnapshotKeeps(w: Wallet)
    ensures QUOTE_KEY in SnapshotOf(w).entries
    ensures ASSET in w.positions ==> FromSnapshot(SnapshotOf(w)).Base(ASSET) == w.Base(ASSET)
    ensures QUOTE_KEY !in w.positions ==> FromSnapshot(SnapshotOf(w)) == w
  {
    WalletRoundTrip(w);
  }

  lemma Marks(w: Wallet)
    ensures w.quote == 1000.0 && w.Base(ASSET) == 0.0 ==> w.EquityAt(ASSET, 100.0) == 1000.0
    ensures w.quote == 100.0 && w.Base(ASSET) == 9.0
        ==> w.EquityAt(ASSET, 100.0) == 1000.0 && w.EquityAt(ASSET, 10.0) == 190.0
  {
  }

  lemma Trips(s: State, m: Moment)
    requires s.pending.None? && s.engine.starting == Some(1000.0) && m == BuyAt(ASSET, 1.0, 10.0, 1)
    requires s.wallet.EquityAt(ASSET, 10.0) == 190.0
    ensures Stepped(Plain(5), s, m).engine.tripped && OpenWrites(Plain(5), s, m.tick) == []
        && Opened(Plain(5), s, m.tick) == s
    ensures |TickWrites(Plain(5), s, m)| == 1
  {
    hide Times, PrunedTs, PrunedSpend, SumSpent, SnapshotOf, Wallet.EquityAt;
    HalfOf(1000.0);
    assert Times(1000.0, 1.0 - 0.5) == 500.0 by { HalfOfThousand(); }
  }

  lemma HalfOfThousand()
    ensures Times(1000.0, 1.0 - 0.5) == 500.0 && Times(1000.0, 0.5) == 500.0
  {
  }

  /** Denied intents anchor the floor and write nothing; a crash then anchors it again, at
      whatever the position is worth by then. */
  lemma AnchorMoves(w: Wallet) returns (hs: seq<Happening>)
    requires w == Wallet(0.0, map[ASSET := 10.0])
    ensures |hs| == 3 && TimedLife(hs, -1) && hs[1].CrashedBetween?
    ensures Lived(Plain(5), w, hs[..1]).s.engine.starting == Some(1000.0)
    ensures Lived(Plain(5), w, hs).s.engine.starting == Some(500.0)
  {
    hide Stepped, TickWrites, FromSnapshot, EntriesOf, SnapshotOf, Lived, TimedLife, NowIn;
    var r := Plain(5);
    var m0, m1 := BuyAt("B", 1.0, 100.0, 0), BuyAt("B", 1.0, 50.0, 1);
    var one := [] + [Ticked(m0)];
    var two := one + [CrashedBetween];
    hs := two + [Ticked(m1)];
    assert hs[..1] == one && hs[1] == CrashedBetween;
    LivedNext(r, w, [], Ticked(m0), -1);
    LivedNext(r, w, one, CrashedBetween, -1);
    LivedNext(r, w, two, Ticked(m1), -1);
    DeniesOther(Fresh(NEW_ENGINE, w), m0);
    DeniesOther(Lived(r, w, two).s, m1);
    assert w.EquityAt(ASSET, 100.0) == 1000.0 && w.EquityAt(ASSET, 50.0) == 500.0;
  }

  lemma DeniesOther(s: State, m: Moment)
    requires s.pending.None? && s.engine == NEW_ENGINE && m.proposal.Some? && m.proposal.value.symbol != ASSET
    requires m.tick.symbol == ASSET && s.wallet.EquityAt(ASSET, m.tick.price) >= 0.0
    ensures var after := Stepped(Plain(5), s, m);
      && after.engine.starting == Some(s.wallet.EquityAt(ASSET, m.tick.price)) && !after.engine.tripped
      && after.wallet == s.wallet && after.pending.None? && after.saved == s.saved
  {
    hide Times, PrunedTs, PrunedSpend, SumSpent, SnapshotOf, Wallet.EquityAt;
    HalfOf(s.wallet.EquityAt(ASSET, m.tick.price));
  }

  /** Two fills in ten ticks are allowed.  A clock that starts again from 0 after a restart puts a
      third into a window that had two, though no fill is torn: the deque was pruned for a time
      that is still to come. */
  lemma ClockRestarts(w: Wallet) returns (hs: seq<Happening>)
    requires w == Wallet(1000.0, map[])
    ensures |hs| == 5 && TimedLife(hs[..4], -1) && hs[3].CrashedBetween? && hs[4].Ticked? && hs[4].m.tick.ts == 0
    ensures var l := Lived(Plain(2), w, hs);
      Torn(l.history) == [] && |Within(Every(l.history), 1 - Plain(2).cfg.windowSteps, 1)| == 3
  {
    hide Stepped, TickWrites, FromSnapshot, Lived, TimedLife, NowIn, EntriesOf, Every, Torn, Within, Fills, Opened,
         OpenWrites, PrunedTs, SnapshotOf, Wallet.EquityAt;
    var r := Plain(2);
    var m0, m1, m2 := BuyAt(ASSET, 1.0, 100.0, 0), BuyAt(ASSET, 1.0, 100.0, 1), BuyAt(ASSET, 1.0, 100.0, 20);
    var one := [] + [Ticked(m0)];
    var two := one + [Ticked(m1)];
    var three := two + [Ticked(m2)];
    var four := three + [CrashedBetween];
    hs := four + [Ticked(m0)];
    assert hs[..4] == four;
    LivedNext(r, w, [], Ticked(m0), -1);
    LivedNext(r, w, one, Ticked(m1), -1);
    LivedNext(r, w, two, Ticked(m2), -1);
    LivedNext(r, w, three, CrashedBetween, -1);
    LivedNext(r, w, four, Ticked(m0), -1);
    Windows();
    BuysOne(Fresh(NEW_ENGINE, w), 1000.0, 0);
    KeptEntry(TickWrites(r, Fresh(NEW_ENGINE, w), m0));
    var s1 := Lived(r, w, one).s;
    assert s1.engine.recent == [0];
    BuysOne(s1, 900.0, 1);
    KeptEntry(TickWrites(r, s1, m1));
    var s2 := Lived(r, w, two).s;
    assert s2.engine.recent == [0, 1];
    BuysOne(s2, 800.0, 20);
    KeptEntry(TickWrites(r, s2, m2));
    var s3 := Lived(r, w, three).s;
    SnapshotKeeps(s3.wallet);
    var s4 := Lived(r, w, four).s;
    assert s3.engine.recent == [20] && s4.engine == s3.engine && s4.wallet == s3.wallet;
    BuysOne(s4, 700.0, 0);
    KeptEntry(TickWrites(r, s4, m0));
    FourEntries([0, 1, 20, 0], Lived(r, w, hs).history);
  }

  lemma Windows()
    ensures PrunedTs([], -10) == [] && PrunedTs([0], -9) == [0] && PrunedTs([0, 1], 10) == []
    ensures PrunedTs([20], -10) == [20]
  {
    assert [0, 1][1..] == [1] && [1][1..] == [];
    assert Pruned([1], Itself, 10) == [];
  }

  /** Buying one at 100, when everything is still worth 1000. */
  lemma BuysOne(s: State, quote: real, ts: int)
    requires s.pending.None? && !s.engine.tripped && |PrunedTs(s.engine.recent, ts - 10)| < 2
    requires s.engine.starting.None? || s.engine.starting == Some(1000.0)
    requires s.wallet.quote == quote >= 100.0 && s.wallet.Base(ASSET) == (1000.0 - quote) / 100.0 >= 0.0
    requires QUOTE_KEY !in s.wallet.positions
    ensures var r, m := Plain(2), BuyAt(ASSET, 1.0, 100.0, ts);
      var after, ws := Stepped(r, s, m), TickWrites(r, s, m);
      && after.pending.None? && !after.engine.tripped && after.engine.starting == Some(1000.0)
      && after.engine.recent == PrunedTs(s.engine.recent, ts - 10) + [ts]
      && after.wallet.quote == quote - 100.0 && after.wallet.Base(ASSET) == (1000.0 - (quote - 100.0)) / 100.0
      && QUOTE_KEY !in after.wallet.positions
      && |ws| == 2 && ws[0] == Append(Bought(1.0, 100.0, ts)) && ws[1].Save?
      && after.saved != [] && after.saved[|after.saved| - 1].engine == after.engine
      && after.saved[|after.saved| - 1].wallet == SnapshotOf(after.wallet)
  {
    hide Stepped, TickWrites, Opened, OpenWrites, PrunedTs, SnapshotOf, Wallet.EquityAt;
    WorthThousand(s.wallet, quote);
    HalfOfThousand();
    Sizes();
    Buys(s, 2, 1.0, 100.0, ts);
  }

  lemma WorthThousand(w: Wallet, quote: real)
    requires w.quote == quote && w.Base(ASSET) == (1000.0 - quote) / 100.0
    ensures w.EquityAt(ASSET, 100.0) == 1000.0
  {
  }

  lemma FourEntries(ts: seq<int>, h: seq<Entry>)
    requires ts == [0, 1, 20, 0] && |h| == 4
    requires forall k :: 0 <= k < 4 ==> h[k] == Entry(Bought(1.0, 100.0, ts[k]), true)
    ensures Torn(h) == [] && |Within(Every(h), -9, 1)| == 3
  {
    hide Every, Torn, Within;
    NothingWithin(-9, 1);
    var a, b, c := [] + [h[0]], [] + [h[0]] + [h[1]], [] + [h[0]] + [h[1]] + [h[2]];
    assert h == c + [h[3]];
    OneMoreKept([], h[0]);
    OneMoreKept(a, h[1]);
    OneMoreKept(b, h[2]);
    OneMoreKept(c, h[3]);
  }

  lemma OneMoreKept(h: seq<Entry>, e: Entry)
    requires e.kept
    ensures Torn(h + [e]) == Torn(h)
    ensures |Within(Every(h + [e]), -9, 1)|
         == |Within(Every(h), -9, 1)| + if -9 < e.deal.fill.ts <= 1 then 1 else 0
  {
    hide Within;
    assert (h + [e])[..|h|] == h;
    WithinNext(Every(h), e.deal, -9, 1);
  }

  lemma NothingWithin(lo: int, hi: int)
    ensures Within(Every([]), lo, hi) == [] && Torn([]) == []
  {
  }
}
