/** What the figures of the paper books mean in terms of what was observed: which observation
    enters, holds and leaves, what each returns, and what a position makes from the day it is
    entered. */
module ShadowAccounts {
  import opened Sums
  import opened Funding
  import opened Shadow

  // ---- the rules ------------------------------------------------------------------------------------

  /** The shadow book enters on an observation exactly when it is out, the episode of high funding
      has lasted its k intervals, and the gate allows it; a refused entry is FLAT and leaves it
      out, with the age of the episode kept.  It leaves when the episode ends. */
  lemma ShadowRule(b: Book, o: Observation, p: CarryParams, k: int)
    ensures var (after, line, action) := Observed(b, o, p, k);
      var age := if b.signal.age == 0 then (if o.funding >= p.enterRate then 1 else 0)
                 else if o.funding < p.exitRate then 0 else b.signal.age + 1;
      && after.signal.age == age
      && (action == ENTER <==> !b.signal.inPos && age >= k && o.allowEntry)
      && (action == HOLD <==> b.signal.inPos && age != 0)
      && (action == EXIT <==> b.signal.inPos && age == 0)
      && (action == FLAT <==> !b.signal.inPos && (age < k || !o.allowEntry))
      && (after.signal.inPos <==> action == ENTER || action == HOLD)
      && line.action == action && line.ts == o.ts && line.funding == o.funding && line.age == age
  {
  }

  /** The basis book enters exactly when it is out, the premium is rich enough and the gate allows
      it, and leaves exactly when it is in and the premium has converged. */
  lemma BasisRule(b: BasisState, o: BasisObservation, p: BasisParams)
    ensures var (after, line, action) := BasisObserved(b, o, p);
      && (action == ENTER <==> !b.inPos && o.premium >= p.enterPremium && o.allowEntry)
      && (action == FLAT <==> !b.inPos && (o.premium < p.enterPremium || !o.allowEntry))
      && (action == EXIT <==> b.inPos && o.premium <= p.exitPremium)
      && (action == HOLD <==> b.inPos && o.premium > p.exitPremium)
      && (after.inPos <==> action == ENTER || action == HOLD)
      && line.action == action && line.ts == o.ts && line.funding == o.funding && line.premium == o.premium
      && after.prevPremium == if action == ENTER || action == HOLD then o.premium else b.prevPremium
  {
  }

  // ---- returns and costs ------------------------------------------------------------------------------

  ghost function LegsCost(legs: int, fee: real): real {
    legs as real * fee
  }

  /** Half the legs are traded on the way in and half on the way out, so a round trip costs all
      of them. */
  lemma RoundTripCosts(p: CarryParams, q: BasisParams)
    ensures p.EntryCost() == p.ExitCost() && p.EntryCost() + p.ExitCost() == LegsCost(p.legsRoundTrip, p.feePerLeg)
    ensures q.EntryCost() == q.ExitCost() && q.EntryCost() + q.ExitCost() == LegsCost(q.legsRoundTrip, q.feePerLeg)
  {
    HalfAndHalf(p.legsRoundTrip as real, p.feePerLeg);
    HalfAndHalf(q.legsRoundTrip as real, q.feePerLeg);
  }

  lemma HalfAndHalf(legs: real, fee: real)
    ensures (legs / 2.0) * fee + (legs / 2.0) * fee == legs * fee
  {
    assert (legs / 2.0) * fee + (legs / 2.0) * fee == (legs / 2.0 + legs / 2.0) * fee;
  }

  /** What was observed and what was done about it. */
  ghost function Trail(hs: seq<Happening>, p: CarryParams, k: int): seq<(Observation, Action)> {
    if hs == [] then []
    else
      var before, h := hs[..|hs| - 1], hs[|hs| - 1];
      Trail(before, p, k)
      + if h.Observe? then [(h.o, Observed(NeverRestarted(before, p, k), h.o, p, k).2)] else []
  }

  ghost function Done(trail: seq<(Observation, Action)>, a: Action): nat {
    if trail == [] then 0
    else Done(trail[..|trail| - 1], a) + if trail[|trail| - 1].1 == a then 1 else 0
  }

  /** Funding of the observations that were held through. */
  ghost function HeldFunding(trail: seq<(Observation, Action)>): real {
    if trail == [] then 0.0
    else
      var (o, a) := trail[|trail| - 1];
      HeldFunding(trail[..|trail| - 1]) + if a == HOLD then o.funding else 0.0
  }

  /** Entering and leaving return their half of the round trip, negated; holding returns the
      funding; being out returns nothing. */
  ghost predicate Pays(r: real, o: Observation, a: Action, p: CarryParams) {
    var half := LegsCost(p.legsRoundTrip, p.feePerLeg) / 2.0;
    match a
    case ENTER => r == -half
    case HOLD => r == o.funding
    case EXIT => r == -half
    case FLAT => r == 0.0
  }

  ghost predicate Accounts(x: Figures, trail: seq<(Observation, Action)>, p: CarryParams) {
    && |x.rets| == |trail| && (forall i :: 0 <= i < |trail| ==> Pays(x.rets[i], trail[i].0, trail[i].1, p))
    && x.funding == HeldFunding(trail) && x.convergence == 0.0
    && x.entries == Done(trail, ENTER) && x.exits == Done(trail, EXIT) && x.holds == Done(trail, HOLD)
  }

  lemma TrailNext(trail: seq<(Observation, Action)>, o: Observation, a: Action)
    ensures forall b :: Done(trail + [(o, a)], b) == Done(trail, b) + if a == b then 1 else 0
    ensures HeldFunding(trail + [(o, a)]) == HeldFunding(trail) + if a == HOLD then o.funding else 0.0
  {
    assert (trail + [(o, a)])[..|trail|] == trail;
  }

  lemma ObservedAccounts(b: Book, o: Observation, p: CarryParams, k: int, trail: seq<(Observation, Action)>)
    requires Accounts(b.figures, trail, p)
    ensures Accounts(Observed(b, o, p, k).0.figures, trail + [(o, Observed(b, o, p, k).2)], p)
  {
    hide Times, Decided, Done, HeldFunding, CarryParams.EntryCost, CarryParams.ExitCost, LegsCost;
    RoundTripCosts(p, BasisParams(0.0, 0.0, 0.0, 0));
    TrailNext(trail, o, Observed(b, o, p, k).2);
  }

  /** Over any history, vetoed entries and restarts included: every return is what its observation
      pays, and the figures count what was done. */
  lemma {:induction false} ShadowBookAccounts(hs: seq<Happening>, p: CarryParams, k: int)
    ensures Lived(hs, p, k).0 == NeverRestarted(hs, p, k)
    ensures Accounts(Lived(hs, p, k).0.figures, Trail(hs, p, k), p)
  {
    hide Accounts, Observed, Lived;
    RestartsDoNotMatter(hs, p, k);
    if hs == [] {
      NothingAccounts(p);
    } else {
      var before, h := hs[..|hs| - 1], hs[|hs| - 1];
      ShadowBookAccounts(before, p, k);
      if h.Observe? {
        ObservedAccounts(NeverRestarted(before, p, k), h.o, p, k, Trail(before, p, k));
      } else {
        assert Trail(before, p, k) + [] == Trail(before, p, k);
      }
    }
  }

  lemma NothingAccounts(p: CarryParams)
    ensures Accounts(NO_FIGURES, [], p)
  {
  }

  // ---- the basis book ------------------------------------------------------------------------------------

  /** The positions of a book so far: what the closed ones made from the premium coming down, and
      for an open one the premium it was entered at and the last it was held at. */
  datatype Positions = Positions(closed: real, open: bool, entered: real, last: real) {
    function Made(): real {
      closed + if open then entered - last else 0.0
    }
  }

  ghost function After(x: Positions, premium: real, a: Action): Positions {
    match a
    case ENTER => Positions(x.closed, true, premium, premium)
    case HOLD => x.(last := premium)
    case EXIT => Positions(x.closed + (x.entered - x.last), false, 0.0, 0.0)
    case FLAT => x
  }

  ghost function PositionsOf(hs: seq<BasisHappening>, p: BasisParams): Positions {
    if hs == [] then Positions(0.0, false, 0.0, 0.0)
    else
      var before, h := hs[..|hs| - 1], hs[|hs| - 1];
      if h.BasisObserve? then
        After(PositionsOf(before, p), h.o.premium, BasisObserved(BasisNeverRestarted(before, p), h.o, p).2)
      else PositionsOf(before, p)
  }

  /** Realized convergence is, over all positions, the premium each was entered at less the last
      one it was held at: the book's, and the analysis of its ledger, whatever the vetoes and
      restarts. */
  lemma {:induction false} ConvergenceIsPremiumLost(hs: seq<BasisHappening>, p: BasisParams)
    ensures var (b, lines) := BasisLived(hs, p); var x := PositionsOf(hs, p);
      && b == BasisNeverRestarted(hs, p)
      && b.figures.convergence == x.Made() && Breakdown(lines).convergence == x.Made()
      && (b.inPos <==> x.open) && (x.open ==> b.prevPremium == x.last)
  {
    hide Breakdown, BasisLived, Reconciles;
    BasisRestartsDoNotMatter(hs, p);
    BasisLedgerReconciles(hs, p);
    ConvergenceReconciles(Breakdown(BasisLived(hs, p).1), BasisLived(hs, p).0.figures, p.EntryCost(), p.ExitCost());
    if hs != [] {
      var before, h := hs[..|hs| - 1], hs[|hs| - 1];
      ConvergenceIsPremiumLost(before, p);
      if h.BasisObserve? {
        ConvergenceStep(BasisNeverRestarted(before, p), h.o, p, PositionsOf(before, p));
      }
    }
  }

  lemma ConvergenceReconciles(d: PnlBreakdown, x: Figures, entryCost: real, exitCost: real)
    requires Reconciles(d, x, entryCost, exitCost)
    ensures d.convergence == x.convergence
  {
  }

  lemma ConvergenceStep(b: BasisState, o: BasisObservation, p: BasisParams, x: Positions)
    requires b.figures.convergence == x.Made() && (b.inPos <==> x.open) && (x.open ==> b.prevPremium == x.last)
    ensures var (after, _, action) := BasisObserved(b, o, p); var y := After(x, o.premium, action);
      && after.figures.convergence == y.Made() && (after.inPos <==> y.open)
      && (y.open ==> after.prevPremium == y.last)
  {
    hide Times;
  }

  /** One position: entered on happening i and held on every observation up to n, it makes the
      premium of the entry less that of the last one held. */
  lemma {:induction false} PositionMakes(hs: seq<BasisHappening>, p: BasisParams, i: nat, n: nat)
    requires i < n <= |hs| && hs[i].BasisObserve?
    requires BasisObserved(BasisNeverRestarted(hs[..i], p), hs[i].o, p).2 == ENTER
    requires forall j :: i < j < n && hs[j].BasisObserve? ==>
               BasisObserved(BasisNeverRestarted(hs[..j], p), hs[j].o, p).2 == HOLD
    ensures BasisNeverRestarted(hs[..n], p).figures.convergence - BasisNeverRestarted(hs[..i], p).figures.convergence
         == hs[i].o.premium - LastPremium(hs[i..n])
    ensures BasisNeverRestarted(hs[..n], p).prevPremium == LastPremium(hs[i..n])
  {
    hide BasisObserved;
    var h := hs[n - 1];
    assert hs[..n][..n - 1] == hs[..n - 1] && hs[..n][n - 1] == h;
    assert hs[i..n][..n - 1 - i] == hs[i..n - 1] && hs[i..n][n - 1 - i] == h;
    if n == i + 1 {
      EnterMakes(BasisNeverRestarted(hs[..i], p), h.o, p);
    } else {
      PositionMakes(hs, p, i, n - 1);
      if h.BasisObserve? {
        HoldMakes(BasisNeverRestarted(hs[..n - 1], p), h.o, p);
      }
    }
  }

  ghost function LastPremium(hs: seq<BasisHappening>): real {
    if hs == [] then 0.0
    else if hs[|hs| - 1].BasisObserve? then hs[|hs| - 1].o.premium
    else LastPremium(hs[..|hs| - 1])
  }

  lemma EnterMakes(b: BasisState, o: BasisObservation, p: BasisParams)
    requires BasisObserved(b, o, p).2 == ENTER
    ensures BasisObserved(b, o, p).0.figures.convergence == b.figures.convergence
    ensures BasisObserved(b, o, p).0.prevPremium == o.premium
  {
  }

  lemma HoldMakes(b: BasisState, o: BasisObservation, p: BasisParams)
    requires BasisObserved(b, o, p).2 == HOLD
    ensures BasisObserved(b, o, p).0.figures.convergence == b.figures.convergence + (b.prevPremium - o.premium)
    ensures BasisObserved(b, o, p).0.prevPremium == o.premium
  {
  }

  /** What one observation returns: half the round trip less on the way in and out, the funding and
      the premium lost while held, nothing when out. */
  lemma BasisPays(b: BasisState, o: BasisObservation, p: BasisParams)
    ensures var (after, line, action) := BasisObserved(b, o, p);
      var half, r := LegsCost(p.legsRoundTrip, p.feePerLeg) / 2.0, line.r;
      && after.figures.rets == b.figures.rets + [r]
      && after.figures.funding == b.figures.funding + (if action == HOLD then o.funding else 0.0)
      && (match action
          case ENTER => r == -half
          case HOLD => r == o.funding + (b.prevPremium - o.premium)
          case EXIT => r == -half
          case FLAT => r == 0.0)
  {
    hide Times, LegsCost, BasisParams.EntryCost, BasisParams.ExitCost;
    RoundTripCosts(CarryParams(0.0, 0.0, 0.0, 0), p);
  }
}
