/** Each hypothesis about the environment is needed: dropping any one of them, with
    all the others kept, there is a run in which the manager's promise fails. */
module OrderHypotheses {
  import opened OrderProtocol
  import opened Wrappers
  import opened OrderDurability

  /** Two orders executed, or an executed order whose record says rejected. */
  ghost predicate Broken(s: State, id: Id) {
    || BookOf(s, id).executed > 1
    || (id in s.mem && s.mem[id].state == REJECTED && BookOf(s, id).executed > 0)
  }

  const ID_X: Id := "x"

  /** The step is no lookup that answers "no fill" while a request of its id is under way. */
  ghost predicate Prompt(s: State, step: Step) {
    Asked(s, step).Some? && Answer(step).NoFill? ==> BookOf(s, Asked(s, step).value).underWay == 0
  }

  /** Every "no fill" of the run came when nothing of its id was under way. */
  ghost predicate PromptLookups(t: Trace)
    requires |t.steps| <= |t.states|
  {
    forall i :: 0 <= i < |t.steps| ==> Prompt(t.states[i], t.steps[i])
  }

  // ---- building runs -----------------------------------------------------------------------------

  /** A run from an empty start that meets each of the hypotheses, and asks promptly if it must. */
  ghost predicate Keeps(t: Trace, hs: set<Hypothesis>, prompt: bool) {
    t.From(3) && (forall h :: h in hs ==> t.Obeys(h)) && (prompt ==> PromptLookups(t))
  }

  lemma Next(t: Trace, step: Step, hs: set<Hypothesis>, prompt: bool) returns (u: Trace)
    requires Keeps(t, hs, prompt) && Enabled(t.Last(), step)
    requires (forall h :: h in hs ==> Meets(h, t.Last(), step)) && (prompt ==> Prompt(t.Last(), step))
    ensures Keeps(u, hs, prompt) && u.Last() == Apply(t.Last(), step)
  {
    hide Enabled, Apply, Meets, Prompt;
    u := Extend(t, 3, step, hs);
    if prompt {
      forall i | 0 <= i < |u.steps| ensures Prompt(u.states[i], u.steps[i]) {
        if i < |t.steps| {
          assert u.states[i] == t.states[i] && u.steps[i] == t.steps[i];
        }
      }
    }
  }

  lemma Recovered(hs: set<Hypothesis>, prompt: bool) returns (t: Trace)
    ensures Keeps(t, hs, prompt) && t.Last() == Init(3).(recovered := true)
  {
    t := Trace([Init(3)], []);
    assert Keeps(t, hs, prompt);
    hide Keeps;
    t := Next(t, StartRecover([]), hs, prompt);
    t := Next(t, FinishRecover, hs, prompt);
  }

  /** A first submit, about to be posted. */
  lemma Submitted(hs: set<Hypothesis>, prompt: bool) returns (t: Trace)
    ensures Keeps(t, hs, prompt)
    ensures t.Last().pc == Posting(ID_X, 3) && t.Last().cap == 3 && t.Last().recovered
    ensures t.Last().mem == t.Last().disk == map[ID_X := NEW_RECORD]
    ensures t.Last().books == map[] && t.Last().ledger == [Event(ID_X, NEW_RECORD)]
  {
    hide Keeps;
    t := Recovered(hs, prompt);
    t := Next(t, Submit(ID_X, 3), hs, prompt);
    t := Next(t, WriteCheckpoint, hs, prompt);
    t := Next(t, Decide, hs, prompt);
  }

  /** A first POST, with any reply. */
  lemma FirstPost(reply: Reply, fate: Fate, hs: set<Hypothesis>, prompt: bool) returns (t: Trace)
    requires reply.NotLanded? ==> Rejections !in hs
    ensures Keeps(t, hs, prompt)
    ensures t.Last().pc == Answered(ID_X, 3, reply) && t.Last().cap == 3 && t.Last().recovered
    ensures t.Last().mem == map[ID_X := NEW_RECORD.(attempts := 1)] && t.Last().disk == map[ID_X := NEW_RECORD]
    ensures BookOf(t.Last(), ID_X) == Sent(NO_ORDERS, fate)
  {
    hide Keeps;
    t := Submitted(hs, prompt);
    t := Next(t, Post(reply, fate), hs, prompt);
  }

  /** A POST that timed out; the record is UNKNOWN and about to be looked up. */
  lemma TimedOut(fate: Fate, hs: set<Hypothesis>, prompt: bool) returns (t: Trace)
    ensures Keeps(t, hs, prompt)
    ensures t.Last().pc == Asking(ID_X, 3) && t.Last().cap == 3 && t.Last().recovered
    ensures t.Last().mem == map[ID_X := NEW_RECORD.(attempts := 1, state := UNKNOWN)]
    ensures BookOf(t.Last(), ID_X) == Sent(NO_ORDERS, fate)
  {
    hide Keeps;
    t := FirstPost(Indeterminate, fate, hs, prompt);
    t := Next(t, WriteOutcome, hs, prompt);
    t := Next(t, WriteCheckpoint, hs, prompt);
  }

  /** The lookup after it finds nothing, rightly: the order rests, or is not there yet. */
  lemma Unfilled(fate: Fate, hs: set<Hypothesis>, prompt: bool) returns (t: Trace)
    requires prompt ==> fate != UnderWay
    ensures Keeps(t, hs, prompt)
    ensures t.Last().pc == Posting(ID_X, 3) && t.Last().cap == 3 && t.Last().recovered
    ensures t.Last().mem == map[ID_X := NEW_RECORD.(attempts := 1, state := UNKNOWN)]
    ensures BookOf(t.Last(), ID_X) == Sent(NO_ORDERS, fate)
  {
    hide Keeps;
    t := TimedOut(fate, hs, prompt);
    t := Next(t, Reconcile(NoFill), hs, prompt);
  }

  /** The order trades and leaves the book. */
  lemma Executes(t0: Trace, hs: set<Hypothesis>, prompt: bool) returns (t: Trace)
    requires Keeps(t0, hs, prompt) && BookOf(t0.Last(), ID_X).open > 0
    requires Quiet in hs ==> !Window(t0.Last(), ID_X)
    requires Arrivals in hs ==> BookOf(t0.Last(), ID_X).underWay == 0
    ensures var b := BookOf(t0.Last(), ID_X);
      && Keeps(t, hs, prompt)
      && t.Last()
         == t0.Last().(books := t0.Last().books[ID_X := b.(open := b.open - 1, executed := b.executed + 1)])
  {
    hide Keeps;
    t := Next(t0, Trade(ID_X), hs, prompt);
    t := Next(t, Complete(ID_X), hs, prompt);
  }

  /** A request still under way makes a second order, after the first is gone. */
  lemma ArrivesLate(t0: Trace, hs: set<Hypothesis>, prompt: bool) returns (t: Trace)
    requires Keeps(t0, hs, prompt) && BookOf(t0.Last(), ID_X) == Book(0, 0, 1, 1)
    ensures Keeps(t, hs, prompt) && Broken(t.Last(), ID_X)
  {
    hide Keeps;
    t := Next(t0, Arrive(ID_X, true), hs, prompt);
    t := Next(t, Trade(ID_X), hs, prompt);
  }

  // ---- one run for each hypothesis ---------------------------------------------------------------

  lemma WithoutLookups(hs: set<Hypothesis>) returns (t: Trace)
    requires Lookups !in hs
    ensures t.From(3) && (forall h :: h in hs ==> t.Obeys(h)) && Broken(t.Last(), ID_X)
  {
    hide Trace.From, Trace.Obeys;
    t := TimedOut(Landed, hs, false);
    t := Executes(t, hs, false);
    t := Next(t, Reconcile(NoFill), hs, false);       // the lookup itself failed
    t := Next(t, Post(Handle(None), Landed), hs, false);
    t := Next(t, Trade(ID_X), hs, false);
  }

  lemma WithoutQuiet(hs: set<Hypothesis>) returns (t: Trace)
    requires Quiet !in hs
    ensures t.From(3) && (forall h :: h in hs ==> t.Obeys(h)) && Broken(t.Last(), ID_X)
  {
    hide Trace.From, Trace.Obeys;
    t := Unfilled(Landed, hs, false);                 // resting
    t := Executes(t, hs, false);                      // done before the re-POST
    t := Next(t, Post(Handle(None), Landed), hs, false);
    t := Next(t, Trade(ID_X), hs, false);
  }

  lemma WithoutArrivals(hs: set<Hypothesis>) returns (t: Trace)
    requires Arrivals !in hs
    ensures t.From(3) && (forall h :: h in hs ==> t.Obeys(h)) && Broken(t.Last(), ID_X)
  {
    hide Trace.From, Trace.Obeys;
    t := Unfilled(UnderWay, hs, false);
    t := Next(t, Post(Handle(None), Landed), hs, false);
    t := Executes(t, hs, false);
    t := ArrivesLate(t, hs, false);                   // the first request
  }

  /** A retry that times out and is overtaken by the end of the order it duplicates. */
  lemma OvertakenRetry(hs: set<Hypothesis>) returns (t: Trace)
    requires Arrivals !in hs
    ensures Keeps(t, hs, true) && Broken(t.Last(), ID_X)
  {
    hide Keeps;
    t := Unfilled(Landed, hs, true);
    t := Next(t, Post(Indeterminate, UnderWay), hs, true);
    t := Executes(t, hs, true);
    t := ArrivesLate(t, hs, true);
  }

  /** Waiting with the lookup until nothing is under way would not be enough: the retry itself
      can come too late. */
  lemma PromptLookupsAreNotEnough() returns (t: Trace)
    ensures t.From(3) && (forall h :: h != Arrivals ==> t.Obeys(h)) && PromptLookups(t) && Broken(t.Last(), ID_X)
  {
    hide Trace.From, Trace.Obeys, PromptLookups, Broken;
    var hs := {Lookups, Deduplication, Rejections, Quiet, Arrivals, Recovery} - {Arrivals};
    AllBut(Arrivals, hs);
    t := OvertakenRetry(hs);
  }

  lemma WithoutDeduplication(hs: set<Hypothesis>) returns (t: Trace)
    requires Deduplication !in hs
    ensures t.From(3) && (forall h :: h in hs ==> t.Obeys(h)) && Broken(t.Last(), ID_X)
  {
    hide Trace.From, Trace.Obeys;
    t := Unfilled(Landed, hs, false);
    t := Next(t, Post(Handle(None), Landed), hs, false);
    t := Next(t, Trade(ID_X), hs, false);
    t := Next(t, Trade(ID_X), hs, false);
  }

  /** The process dies after a POST that is filled meanwhile. */
  lemma FilledWhileDown(hs: set<Hypothesis>) returns (t: Trace)
    ensures Keeps(t, hs, false)
    ensures t.Last().pc.Idle? && t.Last().cap == 3 && t.Last().mem == map[ID_X := NEW_RECORD]
    ensures BookOf(t.Last(), ID_X) == Book(0, 0, 1, 0)
  {
    hide Keeps;
    t := FirstPost(Handle(None), Landed, hs, false);
    t := Executes(t, hs, false);
    t := Next(t, Crash, hs, false);
  }

  lemma WithoutRecovery(hs: set<Hypothesis>) returns (t: Trace)
    requires Recovery !in hs
    ensures t.From(3) && (forall h :: h in hs ==> t.Obeys(h)) && Broken(t.Last(), ID_X)
  {
    hide Trace.From, Trace.Obeys;
    t := FilledWhileDown(hs);
    t := Next(t, Submit(ID_X, 3), hs, false);         // no recover(): still PLACING, no lookup
    t := Next(t, Decide, hs, false);
    t := Next(t, Post(Handle(None), Landed), hs, false);
    t := Next(t, Trade(ID_X), hs, false);
  }

  lemma WithoutRejections(hs: set<Hypothesis>) returns (t: Trace)
    requires Rejections !in hs
    ensures t.From(3) && (forall h :: h in hs ==> t.Obeys(h)) && Broken(t.Last(), ID_X)
  {
    hide Trace.From, Trace.Obeys;
    t := FirstPost(NotLanded, Landed, hs, false);
    t := Next(t, WriteOutcome, hs, false);
    t := Next(t, Trade(ID_X), hs, false);
  }

  lemma AllBut(dropped: Hypothesis, hs: set<Hypothesis>)
    requires hs == {Lookups, Deduplication, Rejections, Quiet, Arrivals, Recovery} - {dropped}
    ensures forall h: Hypothesis :: h in hs <==> h != dropped
  {
  }

  lemma EachHypothesisIsNeeded(dropped: Hypothesis) returns (t: Trace)
    ensures t.From(3) && (forall h :: h != dropped ==> t.Obeys(h)) && Broken(t.Last(), ID_X)
  {
    hide Trace.From, Trace.Obeys, Broken;
    var hs := {Lookups, Deduplication, Rejections, Quiet, Arrivals, Recovery} - {dropped};
    AllBut(dropped, hs);
    match dropped {
      case Lookups => t := WithoutLookups(hs);
      case Deduplication => t := WithoutDeduplication(hs);
      case Rejections => t := WithoutRejections(hs);
      case Quiet => t := WithoutQuiet(hs);
      case Arrivals => t := WithoutArrivals(hs);
      case Recovery => t := WithoutRecovery(hs);
    }
  }
}
