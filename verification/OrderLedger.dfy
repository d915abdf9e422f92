/** The write-ahead ledger against the checkpoint: which events a checkpoint ever reflected,
    and that replaying those, and no others, gives the checkpoint. */
module OrderLedger {
  import opened OrderProtocol
  import opened OrderSafety
  import opened OrderHypotheses

  // ---- which events --------------------------------------------------------------------------

  /** The events whose checkpoint was written, by their place in the ledger. */
  ghost function Reflected(t: Trace, n: nat): set<nat>
    requires t.IsRun() && n < |t.states|
  {
    if n == 0 then {}
    else
      Reflected(t, n - 1)
      + if t.steps[n - 1].WriteCheckpoint? && t.states[n].ledger != [] then {|t.states[n].ledger| - 1} else {}
  }

  function Places(k: nat): (ps: set<nat>)
    ensures forall i: nat :: i in ps <==> i < k
  {
    if k == 0 then {} else Places(k - 1) + {k - 1}
  }

  /** The events in the ledger that no checkpoint ever reflected. */
  ghost function Unreflected(t: Trace, n: nat): set<nat>
    requires t.IsRun() && n < |t.states|
  {
    Places(|t.states[n].ledger|) - Reflected(t, n)
  }

  /** The process dies between an append and its checkpoint. */
  ghost predicate Tears(s: State, step: Step) {
    step.Crash? && s.pc.Saving?
  }

  /** How often that happened, over the whole run. */
  ghost function TearsBy(t: Trace, n: nat): nat
    requires t.IsRun() && n < |t.states|
  {
    if n == 0 then 0 else TearsBy(t, n - 1) + if Tears(t.states[n - 1], t.steps[n - 1]) then 1 else 0
  }

  /** The records that the events leave, those in `without` passed over. */
  function Replayed(events: seq<Event>, without: set<nat>): map<Id, Record> {
    if events == [] then map[]
    else
      var k := |events| - 1;
      var before := Replayed(events[..k], without);
      if k in without then before else before[events[k].id := events[k].rec]
  }

  lemma {:induction false} ReplayedBelow(events: seq<Event>, a: set<nat>, b: set<nat>)
    requires forall i: nat :: i < |events| ==> (i in a <==> i in b)
    ensures Replayed(events, a) == Replayed(events, b)
  {
    if events != [] {
      ReplayedBelow(events[..|events| - 1], a, b);
    }
  }

  lemma ReplayedNext(events: seq<Event>, e: Event, without: set<nat>)
    ensures Replayed(events + [e], without)
         == if |events| in without then Replayed(events, without) else Replayed(events, without)[e.id := e.rec]
  {
    assert (events + [e])[..|events|] == events;
  }

  // ---- one step --------------------------------------------------------------------------------

  /** Any step appends one event and starts a save, or leaves the ledger alone. */
  lemma LedgerStep(s: State, step: Step)
    requires Shape(s) && Enabled(s, step)
    ensures var u := Apply(s, step);
      if u.pc.Saving? && !s.pc.Saving?
      then u.ledger == s.ledger + [Event(u.pc.id, u.mem[u.pc.id])] && u.disk == s.disk
           && u.mem == s.disk[u.pc.id := u.mem[u.pc.id]] && !step.WriteCheckpoint? && !step.Crash?
      else u.ledger == s.ledger
    ensures s.pc.Saving? && !Apply(s, step).pc.Saving? ==> step.WriteCheckpoint? || step.Crash?
    ensures step.WriteCheckpoint? ==> s.pc.Saving? && !Apply(s, step).pc.Saving? && Apply(s, step).disk == s.mem
    ensures step.Crash? ==> !Apply(s, step).pc.Saving? && Apply(s, step).disk == s.disk
    ensures !step.WriteCheckpoint? ==> Apply(s, step).disk == s.disk
    ensures s.pc.Saving? && Apply(s, step).pc.Saving? ==> Apply(s, step).mem == s.mem
  {
    match step
    case Reconcile(found) => match found { case Found(f) => case NoFill => case Raised => }
    case RecoverOne(found) => match found { case Found(f) => case NoFill => case Raised => }
    case WriteOutcome => match s.pc.reply { case Handle(oid) => case NotLanded => case Indeterminate => }
    case _ =>
  }

  // ---- every reachable state --------------------------------------------------------------------

  /** The event being saved, if one is. */
  ghost function BeingSaved(s: State): set<nat> {
    if s.pc.Saving? && s.ledger != [] then {|s.ledger| - 1} else {}
  }

  ghost predicate Replays(t: Trace, n: nat)
    requires t.IsRun() && n < |t.states|
  {
    var s := t.states[n];
    && (forall i :: i in Reflected(t, n) ==> i < |s.ledger|)
    && (s.pc.Saving? ==> s.ledger != [] && BeingSaved(s) !! Reflected(t, n))
    && Replayed(s.ledger, Unreflected(t, n)) == s.disk
    && (s.pc.Saving? ==> Replayed(s.ledger, Unreflected(t, n) - BeingSaved(s)) == s.mem)
  }

  lemma AppendReplays(t: Trace, n: nat)
    requires t.IsRun() && n + 1 < |t.states| && Shape(t.states[n]) && Replays(t, n)
    requires !t.states[n].pc.Saving? && t.states[n + 1].pc.Saving?
    ensures Replays(t, n + 1)
  {
    hide Enabled, Apply, Shape;
    var s, u := t.states[n], t.states[n + 1];
    LedgerStep(s, t.steps[n]);
    var e := u.ledger[|s.ledger|];
    assert Reflected(t, n + 1) == Reflected(t, n);
    ReplayedNext(s.ledger, e, Unreflected(t, n + 1));
    ReplayedNext(s.ledger, e, Unreflected(t, n + 1) - BeingSaved(u));
    ReplayedBelow(s.ledger, Unreflected(t, n), Unreflected(t, n + 1));
    ReplayedBelow(s.ledger, Unreflected(t, n), Unreflected(t, n + 1) - BeingSaved(u));
  }

  lemma CheckpointReplays(t: Trace, n: nat)
    requires t.IsRun() && n + 1 < |t.states| && Shape(t.states[n]) && Replays(t, n)
    requires t.steps[n].WriteCheckpoint?
    ensures Replays(t, n + 1)
  {
    hide Enabled, Apply, Shape;
    LedgerStep(t.states[n], t.steps[n]);
    assert Unreflected(t, n + 1) == Unreflected(t, n) - BeingSaved(t.states[n]);
  }

  lemma OtherStepReplays(t: Trace, n: nat)
    requires t.IsRun() && n + 1 < |t.states| && Shape(t.states[n]) && Replays(t, n)
    requires !t.steps[n].WriteCheckpoint? && (t.states[n + 1].pc.Saving? ==> t.states[n].pc.Saving?)
    ensures Replays(t, n + 1)
  {
    hide Enabled, Apply, Shape;
    LedgerStep(t.states[n], t.steps[n]);
    assert Reflected(t, n + 1) == Reflected(t, n);
  }

  /** In every reachable state the ledger, without the events no checkpoint reflected, replays
      to the checkpoint; while a save is under way, with its event it replays to memory. */
  lemma {:induction false} LedgerReplays(t: Trace, cap: nat, n: nat)
    requires t.From(cap) && n < |t.states|
    ensures var s := t.states[n];
      && Replayed(s.ledger, Unreflected(t, n)) == s.disk
      && (s.pc.Saving? ==> Replayed(s.ledger, Unreflected(t, n) - BeingSaved(s)) == s.mem)
    ensures Replays(t, n)
  {
    hide Enabled, Apply;
    if n > 0 {
      LedgerReplays(t, cap, n - 1);
      ReachableShape(t, cap, n - 1);
      hide Replays, Shape;
      if t.steps[n - 1].WriteCheckpoint? {
        CheckpointReplays(t, n - 1);
      } else if !t.states[n - 1].pc.Saving? && t.states[n].pc.Saving? {
        AppendReplays(t, n - 1);
      } else {
        OtherStepReplays(t, n - 1);
      }
    }
    ReplaysMeans(t, n);
  }

  lemma ReplaysMeans(t: Trace, n: nat)
    requires t.IsRun() && n < |t.states|
    ensures Replays(t, n) ==>
              var s := t.states[n];
              && Replayed(s.ledger, Unreflected(t, n)) == s.disk
              && (s.pc.Saving? ==> Replayed(s.ledger, Unreflected(t, n) - BeingSaved(s)) == s.mem)
  {
  }

  // ---- how many ------------------------------------------------------------------------------------

  lemma CountStep(t: Trace, n: nat)
    requires t.IsRun() && n + 1 < |t.states| && Shape(t.states[n]) && Replays(t, n)
    ensures |Unreflected(t, n + 1)| == |Unreflected(t, n)| + |BeingSaved(t.states[n + 1])| - |BeingSaved(t.states[n])|
                                       + if Tears(t.states[n], t.steps[n]) then 1 else 0
    ensures Unreflected(t, n) - BeingSaved(t.states[n]) <= Unreflected(t, n + 1)
  {
    hide Enabled, Apply, Shape, Replays, Unreflected;
    UnreflectedStep(t, n);
    LedgerStep(t.states[n], t.steps[n]);
  }

  lemma UnreflectedStep(t: Trace, n: nat)
    requires t.IsRun() && n + 1 < |t.states| && Shape(t.states[n]) && Replays(t, n)
    ensures var s, u := t.states[n], t.states[n + 1];
      && BeingSaved(s) <= Unreflected(t, n)
      && Unreflected(t, n + 1)
         == (if t.steps[n].WriteCheckpoint? then Unreflected(t, n) - BeingSaved(s)
             else if !s.pc.Saving? && u.pc.Saving? then Unreflected(t, n) + BeingSaved(u)
             else Unreflected(t, n))
      && (!s.pc.Saving? && u.pc.Saving? ==> BeingSaved(u) !! Unreflected(t, n))
      && (s.pc.Saving? && u.pc.Saving? ==> BeingSaved(u) == BeingSaved(s))
      && (s.pc.Saving? ==> |BeingSaved(s)| == 1) && (u.pc.Saving? ==> |BeingSaved(u)| == 1)
  {
    hide Enabled, Apply, Shape, Reflected, Replays;
    LedgerStep(t.states[n], t.steps[n]);
    ReflectedStep(t, n);
  }

  lemma ReflectedStep(t: Trace, n: nat)
    requires t.IsRun() && n + 1 < |t.states| && Shape(t.states[n]) && Replays(t, n)
    ensures Reflected(t, n + 1)
         == Reflected(t, n) + if t.steps[n].WriteCheckpoint? then BeingSaved(t.states[n]) else {}
    ensures (forall i :: i in Reflected(t, n) ==> i < |t.states[n].ledger|)
    ensures t.states[n].pc.Saving? ==> t.states[n].ledger != [] && BeingSaved(t.states[n]) <= Unreflected(t, n)
  {
    hide Enabled, Apply, Shape, Replayed;
    LedgerStep(t.states[n], t.steps[n]);
  }

  /** How many events of the ledger no checkpoint reflects: one for each crash, in the whole run,
      that hit between an append and its checkpoint, and the one being saved.  So it is at most
      one exactly when there was no such crash, or one and no save is under way. */
  lemma {:induction false} LedgerLead(t: Trace, cap: nat, n: nat)
    requires t.From(cap) && n < |t.states|
    ensures |Unreflected(t, n)| == TearsBy(t, n) + if t.states[n].pc.Saving? then 1 else 0
    ensures |Unreflected(t, n)| <= 1 <==> TearsBy(t, n) == 0 || (TearsBy(t, n) == 1 && !t.states[n].pc.Saving?)
    ensures TearsBy(t, n) <= t.states[n].crashes
  {
    hide Enabled, Apply, Replays, Unreflected;
    LedgerReplays(t, cap, n);
    if n == 0 {
      NothingUnreflected(t, cap);
    } else {
      LedgerLead(t, cap, n - 1);
      LedgerReplays(t, cap, n - 1);
      ReachableShape(t, cap, n - 1);
      CountStep(t, n - 1);
      SavingHasEvent(t, n);
      SavingHasEvent(t, n - 1);
      CrashesStep(t.states[n - 1], t.steps[n - 1]);
    }
  }

  lemma NothingUnreflected(t: Trace, cap: nat)
    requires t.From(cap)
    ensures Unreflected(t, 0) == {}
  {
  }

  lemma SavingHasEvent(t: Trace, n: nat)
    requires t.IsRun() && n < |t.states| && Replays(t, n)
    ensures |BeingSaved(t.states[n])| == if t.states[n].pc.Saving? then 1 else 0
  {
  }

  lemma CrashesStep(s: State, step: Step)
    requires Enabled(s, step)
    ensures Apply(s, step).crashes == s.crashes + if step.Crash? then 1 else 0
  {
    match step
    case Reconcile(found) => match found { case Found(f) => case NoFill => case Raised => }
    case RecoverOne(found) => match found { case Found(f) => case NoFill => case Raised => }
    case _ =>
  }

  /** An event that a crash tore stays unreflected for ever: no later checkpoint makes up for it. */
  lemma {:induction false} TornForGood(t: Trace, cap: nat, i: nat, n: nat, place: nat)
    requires t.From(cap) && i <= n < |t.states|
    requires place in Unreflected(t, i) && place !in BeingSaved(t.states[i])
    ensures place in Unreflected(t, n) && place !in BeingSaved(t.states[n])
  {
    hide Enabled, Apply, Replays, Unreflected;
    LedgerReplays(t, cap, n);
    if i < n {
      TornForGood(t, cap, i, n - 1, place);
      LedgerReplays(t, cap, n - 1);
      ReachableShape(t, cap, n - 1);
      CountStep(t, n - 1);
      PlaceIsOld(t, n - 1, place);
    }
  }

  lemma PlaceIsOld(t: Trace, n: nat, place: nat)
    requires t.IsRun() && n + 1 < |t.states| && Shape(t.states[n]) && Replays(t, n)
    requires place in Unreflected(t, n) && place !in BeingSaved(t.states[n])
    ensures place !in BeingSaved(t.states[n + 1])
  {
    hide Enabled, Apply, Shape, Replayed;
    LedgerStep(t.states[n], t.steps[n]);
  }

  // ---- a run in which two are lost ------------------------------------------------------------------

  /** A new process recovers and appends the event of a first submit. */
  lemma Appends(t0: Trace, id: Id, hs: set<Hypothesis>) returns (t: Trace)
    requires Keeps(t0, hs, false) && t0.Last().pc.Idle? && t0.Last().mem == t0.Last().disk == map[]
    requires t0.Last().cap == 3
    ensures Keeps(t, hs, false) && t.Last().pc == Saving(id, ToResolve(3)) && t.Last().cap == 3
    ensures t.Last().mem == map[id := NEW_RECORD] && t.Last().disk == map[]
    ensures t.Last().ledger == t0.Last().ledger + [Event(id, NEW_RECORD)]
  {
    hide Keeps;
    t := Next(t0, StartRecover([]), hs, false);
    t := Next(t, FinishRecover, hs, false);
    t := Next(t, Submit(id, 3), hs, false);
  }

  lemma CrashesWhileSaving(t0: Trace, id: Id, hs: set<Hypothesis>) returns (t: Trace)
    requires Keeps(t0, hs, false) && t0.Last().pc.Idle? && t0.Last().mem == t0.Last().disk == map[]
    requires t0.Last().cap == 3
    ensures Keeps(t, hs, false) && t.Last().pc.Idle? && t.Last().mem == t.Last().disk == map[] && t.Last().cap == 3
    ensures t.Last().ledger == t0.Last().ledger + [Event(id, NEW_RECORD)]
  {
    hide Keeps;
    t := Appends(t0, id, hs);
    t := Next(t, Crash, hs, false);
  }

  lemma ThreeEvents(hs: set<Hypothesis>) returns (t: Trace)
    ensures Keeps(t, hs, false) && !t.Last().pc.Saving?
    ensures t.Last().ledger == [Event("x", NEW_RECORD), Event("y", NEW_RECORD), Event("z", NEW_RECORD)]
    ensures t.Last().disk == t.Last().mem == map["z" := NEW_RECORD]
  {
    t := Trace([Init(3)], []);
    assert Keeps(t, hs, false);
    hide Keeps;
    t := CrashesWhileSaving(t, "x", hs);
    t := CrashesWhileSaving(t, "y", hs);
    t := Appends(t, "z", hs);
    t := Next(t, WriteCheckpoint, hs, false);
  }

  /** Honest surroundings, and a checkpoint after both crashes: the ledger begins with two orders
      that neither the checkpoint nor memory knows. */
  lemma TwoEventsLost() returns (t: Trace)
    ensures t.From(3) && forall h :: t.Obeys(h)
    ensures var s := t.Last();
      && s.ledger == [Event("x", NEW_RECORD), Event("y", NEW_RECORD), Event("z", NEW_RECORD)]
      && s.disk == s.mem == map["z" := NEW_RECORD]
    ensures Unreflected(t, |t.steps|) == {0, 1} && TearsBy(t, |t.steps|) == 2
  {
    var all := {Lookups, Deduplication, Rejections, Quiet, Arrivals, Recovery};
    t := ThreeEvents(all);
    AllAreNamed(all);
    hide Trace.From, Trace.Obeys;
    LedgerReplays(t, 3, |t.steps|);
    OnlyTheLast(t.Last().ledger, Unreflected(t, |t.steps|));
    LedgerLead(t, 3, |t.steps|);
  }

  lemma AllAreNamed(all: set<Hypothesis>)
    requires all == {Lookups, Deduplication, Rejections, Quiet, Arrivals, Recovery}
    ensures forall h: Hypothesis :: h in all
  {
    forall h: Hypothesis ensures h in all {
      match h {
        case Lookups => case Deduplication => case Rejections =>
        case Quiet => case Arrivals => case Recovery =>
      }
    }
  }

  /** Events passed over are just those whose orders the replay does not know. */
  lemma OnlyTheLast(events: seq<Event>, without: set<nat>)
    requires events == [Event("x", NEW_RECORD), Event("y", NEW_RECORD), Event("z", NEW_RECORD)]
    requires Replayed(events, without) == map["z" := NEW_RECORD] && forall k :: k in without ==> k < 3
    ensures without == {0, 1}
  {
    ReplayedNext([], events[0], without);
    ReplayedNext([events[0]], events[1], without);
    ReplayedNext([events[0], events[1]], events[2], without);
    assert [] + [events[0]] == [events[0]] && [events[0]] + [events[1]] == [events[0], events[1]];
    assert [events[0], events[1]] + [events[2]] == events;
    var m := Replayed(events, without);
    assert "x" !in m && "y" !in m && "z" in m;
  }
}
