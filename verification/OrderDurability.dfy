/** What the two durable files guarantee, whatever the exchange does: none of these
    results needs any hypothesis about it. */
module OrderDurability {
  import opened OrderProtocol
  import opened Wrappers
  import opened OrderSafety

  // ---- a POST is preceded by a checkpoint that knows the id ---------------------------

  lemma PostFollowsCheckpoint(t: Trace, cap: nat, n: nat)
    requires t.From(cap) && n < |t.steps| && t.steps[n].Post?
    ensures t.states[n].pc.id in t.states[n].disk
    ensures !Settled(t.states[n].disk[t.states[n].pc.id].state)
  {
    ReachableShape(t, cap, n);
    assert Enabled(t.states[n], t.steps[n]);
  }

  lemma PostsOnlyByPost(s: State, step: Step, id: Id)
    requires Enabled(s, step)
    ensures PostsOf(Apply(s, step), id) == PostsOf(s, id) + if step.Post? && s.pc.id == id then 1 else 0
  {
    match step
    case Reconcile(found) => match found { case Found(f) => case NoFill => case Raised => }
    case RecoverOne(found) => match found { case Found(f) => case NoFill => case Raised => }
    case _ =>
  }

  // ---- a settled checkpoint is never posted again -------------------------------------

  /** Memory is never behind the checkpoint, and a terminal record never changes. */
  ghost predicate Forward(s: State, id: Id) {
    id in s.disk ==>
      && id in s.mem
      && (Settled(s.disk[id].state) ==> Settled(s.mem[id].state))
      && (Terminal(s.disk[id].state) ==> s.mem[id] == s.disk[id])
  }

  lemma ForwardStep(s: State, step: Step, id: Id)
    requires Shape(s) && Forward(s, id) && Enabled(s, step)
    ensures Forward(Apply(s, step), id)
    ensures id in s.disk && Settled(s.disk[id].state) ==>
              id in Apply(s, step).disk && Settled(Apply(s, step).disk[id].state)
    ensures id in s.disk && Terminal(s.disk[id].state) ==>
              id in Apply(s, step).disk && Apply(s, step).disk[id] == s.disk[id]
  {
    match step
    case Reconcile(found) => ForwardLookup(s, step, id);
    case RecoverOne(found) => ForwardLookup(s, step, id);
    case WriteOutcome => match s.pc.reply { case Handle(oid) => case NotLanded => case Indeterminate => }
    case _ =>
  }

  lemma ForwardLookup(s: State, step: Step, id: Id)
    requires Shape(s) && Forward(s, id) && Enabled(s, step) && (step.Reconcile? || step.RecoverOne?)
    ensures Forward(Apply(s, step), id) && Apply(s, step).disk == s.disk
  {
    match step
    case Reconcile(found) => match found { case Found(f) => case NoFill => case Raised => }
    case RecoverOne(found) => match found { case Found(f) => case NoFill => case Raised => }
  }

  lemma {:induction false} ReachableForward(t: Trace, cap: nat, n: nat, id: Id)
    requires t.From(cap) && n < |t.states|
    ensures Forward(t.states[n], id)
  {
    hide Enabled, Apply;
    if n > 0 {
      ReachableForward(t, cap, n - 1, id);
      ReachableShape(t, cap, n - 1);
      ForwardStep(t.states[n - 1], t.steps[n - 1], id);
    }
  }

  /** Once a checkpoint shows the id submitted, open, filled or rejected, nothing that
      happens later posts it: not a submit, not recover, not any number of restarts. */
  lemma {:induction false} SettledNeverReposted(t: Trace, cap: nat, i: nat, n: nat, id: Id)
    requires t.From(cap) && i <= n < |t.states|
    requires id in t.states[i].disk && Settled(t.states[i].disk[id].state)
    ensures PostsOf(t.states[n], id) == PostsOf(t.states[i], id)
    ensures id in t.states[n].disk && Settled(t.states[n].disk[id].state)
  {
    hide Enabled, Apply;
    if i < n {
      SettledNeverReposted(t, cap, i, n - 1, id);
      ReachableShape(t, cap, n - 1);
      ReachableForward(t, cap, n - 1, id);
      ForwardStep(t.states[n - 1], t.steps[n - 1], id);
      PostsOnlyByPost(t.states[n - 1], t.steps[n - 1], id);
      if t.steps[n - 1].Post? {
        PostFollowsCheckpoint(t, cap, n - 1);
      }
    }
  }

  /** A fill (or rejection) in a checkpoint is replayed unchanged for ever. */
  lemma {:induction false} TerminalReplays(t: Trace, cap: nat, i: nat, n: nat, id: Id)
    requires t.From(cap) && i <= n < |t.states|
    requires id in t.states[i].disk && Terminal(t.states[i].disk[id].state)
    ensures id in t.states[n].disk && t.states[n].disk[id] == t.states[i].disk[id]
    ensures id in t.states[n].mem && t.states[n].mem[id] == t.states[i].disk[id]
  {
    hide Enabled, Apply;
    ReachableForward(t, cap, n, id);
    if i < n {
      TerminalReplays(t, cap, i, n - 1, id);
      ReachableShape(t, cap, n - 1);
      ReachableForward(t, cap, n - 1, id);
      ForwardStep(t.states[n - 1], t.steps[n - 1], id);
    }
  }

  // ---- an acknowledged order is never posted again by the same process --------------------------

  /** The exchange has acknowledged a POST of the id with this handle, and the process knows. */
  ghost predicate Acknowledged(s: State, id: Id, oid: Option<string>) {
    && id in s.mem
    && ((s.pc.Answered? && s.pc.id == id && s.pc.reply == Handle(oid))
        || (Settled(s.mem[id].state) && s.mem[id].oid == oid))
  }

  lemma AcknowledgedStep(s: State, step: Step, id: Id, oid: Option<string>)
    requires Shape(s) && Acknowledged(s, id, oid) && Enabled(s, step) && !step.Crash?
    ensures Acknowledged(Apply(s, step), id, oid) && !(step.Post? && s.pc.id == id)
  {
    if step.Reconcile? || step.RecoverOne? {
      AcknowledgedLookup(s, step, id, oid);
    } else if step.WriteOutcome? {
      match s.pc.reply { case Handle(o) => case NotLanded => case Indeterminate => }
    }
  }

  lemma AcknowledgedLookup(s: State, step: Step, id: Id, oid: Option<string>)
    requires Shape(s) && Acknowledged(s, id, oid) && Enabled(s, step) && (step.Reconcile? || step.RecoverOne?)
    ensures Acknowledged(Apply(s, step), id, oid)
  {
    match step
    case Reconcile(found) => match found { case Found(f) => case NoFill => case Raised => }
    case RecoverOne(found) => match found { case Found(f) => case NoFill => case Raised => }
  }

  lemma {:induction false} StaysAcknowledged(t: Trace, cap: nat, i: nat, n: nat, oid: Option<string>)
    requires t.From(cap) && i < n < |t.states| && t.steps[i].Post? && t.steps[i].reply == Handle(oid)
    requires forall k :: i < k < n ==> !t.steps[k].Crash?
    ensures Enabled(t.states[i], t.steps[i]) && Acknowledged(t.states[n], t.states[i].pc.id, oid)
  {
    assert Enabled(t.states[i], t.steps[i]) && t.states[i + 1] == Apply(t.states[i], t.steps[i]);
    if i + 1 < n {
      StaysAcknowledged(t, cap, i, n - 1, oid);
      ReachableShape(t, cap, n - 1);
      assert Enabled(t.states[n - 1], t.steps[n - 1]);
      AcknowledgedStep(t.states[n - 1], t.steps[n - 1], t.states[i].pc.id, oid);
    }
  }

  /** Between a POST that the exchange acknowledged and the next one of the same id lies a crash. */
  lemma AcknowledgedNeverReposted(t: Trace, cap: nat, i: nat, j: nat)
    requires t.From(cap) && i < j < |t.steps| && t.steps[i].Post? && t.steps[j].Post?
    requires t.steps[i].reply.Handle? && t.states[i].pc.Posting? && t.states[j].pc.Posting?
    requires t.states[i].pc.id == t.states[j].pc.id
    ensures exists k :: i < k < j && t.steps[k].Crash?
  {
    hide Enabled, Apply, Acknowledged;
    if !exists k :: i < k < j && t.steps[k].Crash? {
      StaysAcknowledged(t, cap, i, j, t.steps[i].reply.oid);
      ReachableShape(t, cap, j);
      assert Enabled(t.states[j], t.steps[j]);
      AcknowledgedStep(t.states[j], t.steps[j], t.states[i].pc.id, t.steps[i].reply.oid);
    }
  }

  // ---- how many POSTs -----------------------------------------------------------------

  ghost predicate PostBound(s: State, id: Id) {
    && (id !in s.mem && id !in s.disk ==> PostsOf(s, id) == 0)
    && (id in s.mem ==> PostsOf(s, id) <= s.mem[id].attempts + s.crashes && s.mem[id].attempts <= s.cap)
    && (id in s.disk ==> id in s.mem && s.mem[id].attempts <= s.disk[id].attempts + 1 && s.disk[id].attempts <= s.cap)
    && (id in s.mem && id !in s.disk ==> PostsOf(s, id) == 0)
  }

  lemma PostBoundReconcile(s: State, found: Lookup, id: Id)
    requires Shape(s) && PostBound(s, id) && Enabled(s, Reconcile(found))
    ensures PostBound(Apply(s, Reconcile(found)), id) && Apply(s, Reconcile(found)).cap == s.cap
  {
    match found { case Found(f) => case NoFill => case Raised => }
  }

  lemma PostBoundRecoverOne(s: State, found: Lookup, id: Id)
    requires Shape(s) && PostBound(s, id) && Enabled(s, RecoverOne(found))
    ensures PostBound(Apply(s, RecoverOne(found)), id) && Apply(s, RecoverOne(found)).cap == s.cap
  {
    match found { case Found(f) => case NoFill => case Raised => }
  }

  lemma PostBoundWrite(s: State, step: Step, id: Id)
    requires Shape(s) && PostBound(s, id) && Enabled(s, step) && (step.WriteOutcome? || step.Submit?)
    ensures PostBound(Apply(s, step), id) && Apply(s, step).cap == s.cap
  {
    match step
    case WriteOutcome => match s.pc.reply { case Handle(oid) => case NotLanded => case Indeterminate => }
    case Submit(_, _) =>
  }

  lemma PostBoundStep(s: State, step: Step, id: Id)
    requires Shape(s) && PostBound(s, id) && Enabled(s, step)
    ensures PostBound(Apply(s, step), id) && Apply(s, step).cap == s.cap
  {
    if step.Reconcile? {
      PostBoundReconcile(s, step.found, id);
    } else if step.RecoverOne? {
      PostBoundRecoverOne(s, step.found, id);
    } else if step.WriteOutcome? || step.Submit? {
      PostBoundWrite(s, step, id);
    } else {
      PostsOnlyByPost(s, step, id);
    }
  }

  lemma {:induction false} ReachablePostBound(t: Trace, cap: nat, n: nat, id: Id)
    requires t.From(cap) && n < |t.states|
    ensures PostBound(t.states[n], id) && t.states[n].cap == cap
  {
    hide Enabled, Apply;
    if n > 0 {
      ReachablePostBound(t, cap, n - 1, id);
      ReachableShape(t, cap, n - 1);
      PostBoundStep(t.states[n - 1], t.steps[n - 1], id);
    }
  }

  /** Retries are bounded for the life of the id: each crash can lose the count of at
      most one POST. */
  lemma PostsAreBounded(t: Trace, cap: nat, n: nat, id: Id)
    requires t.From(cap) && n < |t.states|
    ensures PostsOf(t.states[n], id) <= cap + t.states[n].crashes
  {
    ReachablePostBound(t, cap, n, id);
  }

  // ---- recover never places ---------------------------------------------------------------

  /** No submit is under way. */
  predicate NotSubmitting(s: State) {
    s.pc.Idle? || s.pc.Recovering? || (s.pc.Saving? && (s.pc.after.ToRecover? || s.pc.after.Done?))
  }

  lemma NotSubmittingStep(s: State, step: Step)
    requires NotSubmitting(s) && Enabled(s, step) && !step.Submit?
    ensures NotSubmitting(Apply(s, step)) && !step.Post?
  {
    if step.RecoverOne? {
      match step.found { case Found(f) => case NoFill => case Raised => }
    }
  }

  /** Without a submit nothing is ever posted, however often recover and restarts happen. */
  lemma {:induction false} RecoverNeverPosts(t: Trace, cap: nat, i: nat, n: nat, id: Id)
    requires t.From(cap) && i <= n < |t.states| && NotSubmitting(t.states[i])
    requires forall j :: i <= j < n ==> !t.steps[j].Submit?
    ensures NotSubmitting(t.states[n]) && PostsOf(t.states[n], id) == PostsOf(t.states[i], id)
  {
    hide Enabled, Apply;
    if i < n {
      RecoverNeverPosts(t, cap, i, n - 1, id);
      NotSubmittingStep(t.states[n - 1], t.steps[n - 1]);
      PostsOnlyByPost(t.states[n - 1], t.steps[n - 1], id);
    }
  }

  // ---- building runs --------------------------------------------------------------------------

  /** One more step on a run. */
  lemma Extend(t: Trace, cap: nat, step: Step, hs: set<Hypothesis>) returns (u: Trace)
    requires t.From(cap) && Enabled(t.Last(), step)
    requires forall h :: h in hs ==> t.Obeys(h) && Meets(h, t.Last(), step)
    ensures u == t.Then(step) && u.From(cap) && u.Last() == Apply(t.Last(), step)
    ensures forall h :: h in hs ==> u.Obeys(h)
  {
    u := t.Then(step);
    forall h | h in hs ensures u.Obeys(h) {
      forall i | 0 <= i < |u.steps| ensures Meets(h, u.states[i], u.steps[i]) {
        if i < |t.steps| {
          assert t.Obeys(h) && u.states[i] == t.states[i] && u.steps[i] == t.steps[i];
        }
      }
    }
  }
}
