/** Safety of every run of the order protocol. */
module OrderSafety {
  import opened OrderProtocol
  import opened Wrappers

  // ---- the shape of reachable states --------------------------------------------

  /** What memory holds beyond the checkpoint: nothing, except around one POST or one write. */
  ghost predicate Durable(s: State) {
    match s.pc
    case Saving(id, _) => id in s.mem && (forall i :: i in s.mem <==> i == id || i in s.disk)
                          && forall i :: i in s.disk && i != id ==> s.mem[i] == s.disk[i]
    case Answered(id, _, _) =>
      id in s.disk && s.mem == s.disk[id := s.disk[id].(attempts := s.disk[id].attempts + 1)]
    case _ => s.mem == s.disk
  }

  ghost predicate AtPc(s: State) {
    match s.pc
    case Saving(id, after) =>
      id in s.mem && (match after
        case ToResolve(max) => s.mem[id].state == PLACING && max <= s.cap
        case ToAsk(max) => (s.mem[id].state == SUBMITTED || s.mem[id].state == UNKNOWN) && max <= s.cap
        case ToRecover(todo) => Settled(s.mem[id].state) && forall i :: i in todo ==> i in s.mem
        case Done => Settled(s.mem[id].state))
    case Deciding(id, max) => id in s.mem && max <= s.cap
    case Asking(id, max) =>
      id in s.mem && max <= s.cap && !Terminal(s.mem[id].state) && s.mem[id].state != PLACING
    case Posting(id, max) =>
      id in s.mem && max <= s.cap && (s.mem[id].state == PLACING || s.mem[id].state == UNKNOWN)
    case Answered(id, max, reply) =>
      id in s.mem && max <= s.cap && (s.mem[id].state == PLACING || s.mem[id].state == UNKNOWN)
    case Recovering(todo) => forall i :: i in todo ==> i in s.mem
    case Idle => true
  }

  ghost predicate Shape(s: State) {
    Durable(s) && AtPc(s)
  }

  /** Appending an event starts a save whenever memory and checkpoint agree elsewhere. */
  lemma ShapePut(s: State, id: Id, rec: Record, after: After)
    requires forall i :: i in s.disk && i != id ==> i in s.mem && s.mem[i] == s.disk[i]
    requires forall i :: i in s.mem ==> i == id || i in s.disk
    requires id in s.disk ==> id in s.mem
    ensures Durable(Put(s, id, rec, after))
  {
  }

  lemma ShapeStep(s: State, step: Step)
    requires Shape(s) && Enabled(s, step)
    ensures Shape(Apply(s, step))
  {
    match step
    case Submit(id, max) =>
      if id !in s.mem {
        ShapePut(s, id, NEW_RECORD, ToResolve(max));
      }
    case WriteCheckpoint => ShapeWrite(s);
    case Decide =>
    case Reconcile(found) => ShapeReconcile(s, found);
    case Post(reply, fate) => ShapePost(s, reply, fate);
    case GiveUp =>
    case WriteOutcome =>
      ShapePut(s, s.pc.id, OutcomeOf(s.mem[s.pc.id], s.pc.reply),
               if s.pc.reply.NotLanded? then Done else ToAsk(s.pc.max));
    case StartRecover(ids) =>
    case RecoverOne(found) => ShapeRecoverOne(s, found);
    case FinishRecover =>
    case Arrive(id, opens) => ShapeExchange(s, Apply(s, step));
    case Trade(id) => ShapeExchange(s, Apply(s, step));
    case Cancel(id) => ShapeExchange(s, Apply(s, step));
    case Complete(id) => ShapeExchange(s, Apply(s, step));
    case Crash =>
  }

  lemma ShapeWrite(s: State)
    requires Shape(s) && s.pc.Saving?
    ensures Shape(Apply(s, WriteCheckpoint))
  {
  }

  lemma ShapeReconcile(s: State, found: Lookup)
    requires Shape(s) && Enabled(s, Reconcile(found))
    ensures Shape(Apply(s, Reconcile(found)))
  {
    var rec := s.mem[s.pc.id];
    match found
    case Found(f) => ShapePut(s, s.pc.id, rec.(state := FILLED, fill := Some(f)), Done);
    case NoFill =>
      if rec.state != UNKNOWN {
        ShapePut(s, s.pc.id, rec.(state := OPEN), Done);
      }
    case Raised =>
  }

  lemma ShapePost(s: State, reply: Reply, fate: Fate)
    requires Shape(s) && Enabled(s, Post(reply, fate))
    ensures Shape(Apply(s, Post(reply, fate)))
  {
  }

  lemma ShapeRecoverOne(s: State, found: Lookup)
    requires Shape(s) && Enabled(s, RecoverOne(found))
    ensures Shape(Apply(s, RecoverOne(found)))
  {
    var id, rest := s.pc.todo[0], s.pc.todo[1..];
    var rec := s.mem[id];
    assert forall i :: i in rest ==> i in s.pc.todo;
    if !Terminal(rec.state) {
      match found
      case Found(f) => ShapePut(s, id, rec.(state := FILLED, fill := Some(f)), ToRecover(rest));
      case NoFill =>
        if rec.oid.Some? {
          ShapePut(s, id, rec.(state := OPEN), ToRecover(rest));
        }
    }
  }

  /** The exchange acts on its own books only. */
  lemma ShapeExchange(s: State, t: State)
    requires Shape(s) && t == s.(books := t.books)
    ensures Shape(t)
  {
  }

  // ---- at most one order per id --------------------------------------------------------

  /** One id's part of the safety invariant. */
  ghost predicate OneOrder(s: State, id: Id) {
    var b := BookOf(s, id);
    && b.open + b.openTraded <= 1 && b.executed <= 1 && b.openTraded <= b.executed
    && (b.open > 0 ==> b.executed == 0)
    && (id !in s.disk ==> b == NO_ORDERS)
    && (Window(s, id) || b.underWay > 0 ==> b.executed == 0 || b.openTraded > 0)
    && (s.pc.Deciding? || (s.pc.Saving? && s.pc.after.ToResolve?) ==> s.recovered)
    && (id in s.mem && s.mem[id].state == FILLED ==> b.executed == 1)
    && (id in s.disk && s.disk[id].state == FILLED ==> b.executed == 1)
  }

  /** The hypotheses at-most-once rests on. */
  ghost predicate Honest(s: State, step: Step) {
    && AuthoritativeLookup(s, step) && ActiveDeduplicated(s, step)
    && QuietWindow(s, step) && ArrivalsInTime(s, step) && RecoverFirst(s, step)
  }

  lemma OneOrderManager(s: State, step: Step, id: Id)
    requires Shape(s) && OneOrder(s, id) && Enabled(s, step) && Honest(s, step)
    requires step.Submit? || step.WriteCheckpoint? || step.Decide? || step.GiveUp?
          || step.StartRecover? || step.FinishRecover? || step.Crash?
    ensures OneOrder(Apply(s, step), id)
  {
  }

  lemma OneOrderReconcile(s: State, found: Lookup, id: Id)
    requires Shape(s) && OneOrder(s, id) && Enabled(s, Reconcile(found)) && Honest(s, Reconcile(found))
    ensures OneOrder(Apply(s, Reconcile(found)), id)
  {
    match found
    case Found(f) =>
    case NoFill =>
    case Raised =>
  }

  lemma OneOrderRecoverOne(s: State, found: Lookup, id: Id)
    requires Shape(s) && OneOrder(s, id) && Enabled(s, RecoverOne(found)) && Honest(s, RecoverOne(found))
    ensures OneOrder(Apply(s, RecoverOne(found)), id)
  {
    assert s.pc.todo == [s.pc.todo[0]] + s.pc.todo[1..];
    if !Terminal(s.mem[s.pc.todo[0]].state) {
      match found
      case Found(f) =>
      case NoFill =>
    }
  }

  lemma OneOrderPost(s: State, reply: Reply, fate: Fate, id: Id)
    requires Shape(s) && OneOrder(s, id) && Enabled(s, Post(reply, fate)) && Honest(s, Post(reply, fate))
    ensures OneOrder(Apply(s, Post(reply, fate)), id)
  {
  }

  lemma OneOrderWriteOutcome(s: State, id: Id)
    requires Shape(s) && OneOrder(s, id) && Enabled(s, WriteOutcome)
    ensures OneOrder(Apply(s, WriteOutcome), id)
  {
    match s.pc.reply
    case Handle(oid) =>
    case NotLanded =>
    case Indeterminate =>
  }

  lemma OneOrderExchange(s: State, step: Step, id: Id)
    requires Shape(s) && OneOrder(s, id) && Enabled(s, step) && Honest(s, step)
    requires step.Arrive? || step.Trade? || step.Cancel? || step.Complete?
    ensures OneOrder(Apply(s, step), id)
  {
    match step
    case Arrive(i, opens) =>
    case Trade(i) =>
    case Cancel(i) =>
    case Complete(i) =>
  }

  lemma OneOrderStep(s: State, step: Step, id: Id)
    requires Shape(s) && OneOrder(s, id) && Enabled(s, step) && Honest(s, step)
    ensures OneOrder(Apply(s, step), id)
  {
    match step
    case Reconcile(found) => OneOrderReconcile(s, found, id);
    case Post(reply, fate) => OneOrderPost(s, reply, fate, id);
    case WriteOutcome => OneOrderWriteOutcome(s, id);
    case RecoverOne(found) => OneOrderRecoverOne(s, found, id);
    case Arrive(i, opens) => OneOrderExchange(s, step, id);
    case Trade(i) => OneOrderExchange(s, step, id);
    case Cancel(i) => OneOrderExchange(s, step, id);
    case Complete(i) => OneOrderExchange(s, step, id);
    case _ => OneOrderManager(s, step, id);
  }

  lemma {:induction false} ReachableShape(t: Trace, cap: nat, n: nat)
    requires t.From(cap) && n < |t.states|
    ensures Shape(t.states[n])
  {
    hide Enabled, Apply;
    if n > 0 {
      ReachableShape(t, cap, n - 1);
      ShapeStep(t.states[n - 1], t.steps[n - 1]);
    }
  }

  /** At most one order of an id ever trades, and a record that says FILLED is right. */
  lemma {:induction false} AtMostOnce(t: Trace, cap: nat, n: nat, id: Id)
    requires t.From(cap) && n < |t.states|
    requires t.Obeys(Lookups) && t.Obeys(Deduplication) && t.Obeys(Quiet) && t.Obeys(Arrivals) && t.Obeys(Recovery)
    ensures OneOrder(t.states[n], id)
    ensures BookOf(t.states[n], id).executed <= 1
    ensures id in t.states[n].mem && t.states[n].mem[id].state == FILLED ==> BookOf(t.states[n], id).executed == 1
  {
    hide Enabled, Apply;
    if n > 0 {
      AtMostOnce(t, cap, n - 1, id);
      ReachableShape(t, cap, n - 1);
      assert Meets(Lookups, t.states[n - 1], t.steps[n - 1]) && Meets(Deduplication, t.states[n - 1], t.steps[n - 1]);
      assert Meets(Quiet, t.states[n - 1], t.steps[n - 1]) && Meets(Arrivals, t.states[n - 1], t.steps[n - 1]);
      assert Meets(Recovery, t.states[n - 1], t.steps[n - 1]);
      OneOrderStep(t.states[n - 1], t.steps[n - 1], id);
    }
  }

  // ---- a rejected record is right too ----------------------------------------------------

  ghost predicate CleanRejection(s: State, id: Id) {
    var b := BookOf(s, id);
    && (id in s.mem && s.mem[id].state == REJECTED ==> b == NO_ORDERS)
    && (id in s.disk && s.disk[id].state == REJECTED ==> b == NO_ORDERS)
    && (s.pc.Answered? && s.pc.id == id && s.pc.reply.NotLanded? ==> b == NO_ORDERS)
  }

  lemma CleanRejectionRecord(s: State, step: Step, id: Id)
    requires Shape(s) && CleanRejection(s, id) && Enabled(s, step)
    requires step.Reconcile? || step.RecoverOne? || step.WriteOutcome?
    ensures CleanRejection(Apply(s, step), id)
  {
    hide Enumerates, Resume;
    match step {
      case Reconcile(found) => match found { case Found(f) => case NoFill => case Raised => }
      case RecoverOne(found) =>
      case WriteOutcome => match s.pc.reply { case Handle(oid) => case NotLanded => case Indeterminate => }
    }
  }

  lemma CleanRejectionPost(s: State, reply: Reply, fate: Fate, id: Id)
    requires Shape(s) && CleanRejection(s, id) && Enabled(s, Post(reply, fate))
    requires OneOrder(s, id) && Honest(s, Post(reply, fate)) && RejectionTruthful(s, Post(reply, fate))
    ensures CleanRejection(Apply(s, Post(reply, fate)), id)
  {
    hide Enumerates, Resume;
  }

  lemma CleanRejectionStep(s: State, step: Step, id: Id)
    requires Shape(s) && OneOrder(s, id) && CleanRejection(s, id) && Enabled(s, step)
    requires Honest(s, step) && RejectionTruthful(s, step)
    ensures CleanRejection(Apply(s, step), id)
  {
    if step.Reconcile? || step.RecoverOne? || step.WriteOutcome? {
      CleanRejectionRecord(s, step, id);
    } else if step.Post? {
      CleanRejectionPost(s, step.reply, step.fate, id);
    }
  }

  /** Nothing of a rejected id was ever executed, or is still open. */
  lemma {:induction false} RejectedNeverExecuted(t: Trace, cap: nat, n: nat, id: Id)
    requires t.From(cap) && n < |t.states| && forall h :: t.Obeys(h)
    ensures CleanRejection(t.states[n], id)
  {
    if n > 0 {
      RejectedNeverExecuted(t, cap, n - 1, id);
      AtMostOnce(t, cap, n - 1, id);
      ReachableShape(t, cap, n - 1);
      var s, step := t.states[n - 1], t.steps[n - 1];
      forall h ensures Meets(h, s, step) {
        assert t.Obeys(h);
      }
      assert Meets(Lookups, s, step) && Meets(Deduplication, s, step) && Meets(Rejections, s, step);
      assert Meets(Quiet, s, step) && Meets(Arrivals, s, step) && Meets(Recovery, s, step);
      CleanRejectionStep(s, step, id);
    }
  }
}
