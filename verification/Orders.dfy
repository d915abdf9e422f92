/** treasuryforge/orders.py and journal.py: the manager as an object with a
    dictionary of records, a journal and an exchange.  Each call and each write it makes
    is recorded in a ghost trace, which stays a run of the order protocol; so what
    is proved about every state of every run holds at each point where a crash could
    stop it, not only between calls. */
module Orders {
  import opened OrderProtocol
  import opened Wrappers
  import opened OrderSafety
  import opened OrderDurability

  datatype Outcome = Outcome(id: Id, state: OrderState, fill: Option<Fill>)

  datatype Seen = Filled | Unfilled | LookupRaised

  ghost predicate Extends(t: Trace, u: Trace) {
    t.states <= u.states && t.steps <= u.steps
  }

  /** A run that keeps every hypothesis about the environment. */
  ghost predicate HonestRun(t: Trace, cap: nat) {
    t.From(cap) && forall h :: t.Obeys(h)
  }

  ghost predicate Allowed(s: State, step: Step) {
    Enabled(s, step) && forall h :: Meets(h, s, step)
  }

  lemma Advance(t: Trace, cap: nat, step: Step)
    requires HonestRun(t, cap) && Allowed(t.Last(), step)
    ensures HonestRun(t.Then(step), cap) && Extends(t, t.Then(step))
    ensures t.Then(step).Last() == Apply(t.Last(), step)
  {
    var u := Extend(t, cap, step, {Lookups, Deduplication, Rejections, Quiet, Arrivals, Recovery});
    forall h ensures u.Obeys(h) {
      match h {
        case Lookups => case Deduplication => case Rejections =>
        case Quiet => case Arrivals => case Recovery =>
      }
      assert h in {Lookups, Deduplication, Rejections, Quiet, Arrivals, Recovery};
    }
  }

  lemma InternalStepsKeep(s: State, step: Step)
    requires Enabled(s, step)
    requires !step.Post? && !step.Arrive? && !step.Trade? && !step.Cancel? && !step.Complete? && !step.WriteCheckpoint?
    ensures Apply(s, step).books == s.books && Apply(s, step).disk == s.disk
    ensures !step.FinishRecover? && !step.Crash? ==> Apply(s, step).recovered == s.recovered
  {
    hide Enumerates, BookOf, PostsOf, Resume, OutcomeOf, AfterReconcile, AfterRecover;
    match step {
      case Reconcile(found) => ReconcileKeeps(s, s.pc.id, s.pc.max, s.mem[s.pc.id], found);
      case RecoverOne(found) => RecoverKeeps(s, s.pc.todo[0], s.pc.todo[1..], s.mem[s.pc.todo[0]], found);
      case _ =>
    }
  }

  lemma ReconcileKeeps(s: State, id: Id, max: nat, rec: Record, found: Lookup)
    ensures var u := AfterReconcile(s, id, max, rec, found);
      u.books == s.books && u.disk == s.disk && u.recovered == s.recovered
  {
  }

  lemma RecoverKeeps(s: State, id: Id, rest: seq<Id>, rec: Record, found: Lookup)
    requires Terminal(rec.state) || !found.Raised?
    ensures var u := AfterRecover(s, id, rest, rec, found);
      u.books == s.books && u.disk == s.disk && u.recovered == s.recovered
  {
  }

  /** The same process, after the exchange has acted on its own. */
  ghost predicate OnlyBooksMoved(s: State, t: State) {
    t == s.(books := t.books)
  }

  /** What any honest run says about an id where it stands. */
  lemma TruthAtTheEnd(t: Trace, cap: nat, id: Id)
    requires HonestRun(t, cap)
    ensures BookOf(t.Last(), id).executed <= 1
    ensures id in t.Last().mem && t.Last().mem[id].state == FILLED ==> BookOf(t.Last(), id).executed == 1
    ensures id in t.Last().mem && t.Last().mem[id].state == REJECTED ==> BookOf(t.Last(), id) == NO_ORDERS
  {
    hide Enabled, Apply, Meets;
    AtMostOnce(t, cap, |t.states| - 1, id);
    RejectedNeverExecuted(t, cap, |t.states| - 1, id);
  }

  /** Recover's lookup, with an answer that is true of the exchange, is a step. */
  lemma RecoverAllowed(s: State, id: Id, rest: seq<Id>, found: Lookup)
    requires s.pc == Recovering([id] + rest) && id in s.mem && !Terminal(s.mem[id].state) && !found.Raised?
    requires found.NoFill? ==> BookOf(s, id).executed == 0
    requires found.Found? ==> BookOf(s, id).executed > 0
    ensures Allowed(s, OrderProtocol.Step.RecoverOne(found))
    ensures Apply(s, OrderProtocol.Step.RecoverOne(found)) == AfterRecover(s, id, rest, s.mem[id], found)
  {
    assert ([id] + rest)[1..] == rest;
    forall h ensures Meets(h, s, OrderProtocol.Step.RecoverOne(found)) {
    }
  }

  lemma ReconcileAllowed(s: State, id: Id, max: nat, found: Lookup)
    requires s.pc == Asking(id, max) && id in s.mem
    requires found.NoFill? ==> BookOf(s, id).executed == 0
    requires found.Found? ==> BookOf(s, id).executed > 0
    ensures Allowed(s, Reconcile(found))
    ensures Apply(s, Reconcile(found)) == AfterReconcile(s, id, max, s.mem[id], found)
  {
    forall h ensures Meets(h, s, Reconcile(found)) {
    }
  }

  lemma PostAllowed(s: State, id: Id, max: nat, reply: Reply, fate: Fate)
    requires s.pc == Posting(id, max) && id in s.mem && s.mem[id].attempts < max
    requires BookOf(s, id).Active() ==> fate != Landed
    requires reply.NotLanded? ==> fate == Lost && !BookOf(s, id).Active() && BookOf(s, id).underWay == 0
    ensures Allowed(s, Post(reply, fate))
    ensures Apply(s, Post(reply, fate))
         == s.(mem := s.mem[id := s.mem[id].(attempts := s.mem[id].attempts + 1)],
               posts := s.posts[id := PostsOf(s, id) + 1],
               books := s.books[id := Sent(BookOf(s, id), fate)],
               pc := Answered(id, max, reply))
  {
    forall h ensures Meets(h, s, Post(reply, fate)) {
    }
  }

  lemma WriteOutcomeAllowed(s: State, id: Id, max: nat, reply: Reply)
    requires s.pc == Answered(id, max, reply) && id in s.mem && !reply.Escapes?
    ensures Allowed(s, WriteOutcome)
    ensures Apply(s, WriteOutcome)
         == Put(s, id, OutcomeOf(s.mem[id], reply), if reply.NotLanded? then Done else ToAsk(max))
  {
    forall h ensures Meets(h, s, WriteOutcome) {
    }
  }

  /** What a lookup leaves of a record: the fill it found, or OPEN for an order the exchange
      once acknowledged, or the record as it was. */
  predicate Learned(before: Record, after: Record, fill: Fill) {
    if Terminal(before.state) then after == before
    else
      || after == before.(state := FILLED, fill := Some(fill))
      || after == if before.oid.Some? then before.(state := OPEN) else before
  }

  /** recover's answer so far, with `left` still to look at: one outcome for each record that
      was not terminal, saying what the record now says. */
  ghost predicate Reported(outs: seq<Outcome>, before: map<Id, Record>, after: map<Id, Record>, left: seq<Id>) {
    && (forall k :: 0 <= k < |outs| ==>
          var id := outs[k].id;
          && id in before && !Terminal(before[id].state) && id !in left
          && id in after && outs[k] == Outcome(id, after[id].state, after[id].fill))
    && (forall j, k :: 0 <= j < k < |outs| ==> outs[j].id != outs[k].id)
    && (forall id :: id in before && !Terminal(before[id].state) && id !in left ==> Mentions(outs, id))
  }

  ghost predicate Mentions(outs: seq<Outcome>, id: Id) {
    exists k :: 0 <= k < |outs| && outs[k].id == id
  }

  /** Some order's fate is still to be learned. */
  ghost predicate InFlight(orders: map<Id, Record>) {
    exists id :: id in orders && !Terminal(orders[id].state)
  }

  lemma InFlightIsReported(outs: seq<Outcome>, before: map<Id, Record>, after: map<Id, Record>)
    requires Reported(outs, before, after, []) && InFlight(before)
    ensures outs != []
  {
    var id :| id in before && !Terminal(before[id].state);
    assert Mentions(outs, id);
  }

  /** Halfway through recover's loop. */
  ghost predicate Halfway(outs: seq<Outcome>, before: map<Id, Record>, now: map<Id, Record>, todo: seq<Id>,
                          trade: Id -> Fill) {
    && before.Keys == now.Keys
    && (forall i :: i in todo ==> i in before && now[i] == before[i])
    && (forall i, j :: 0 <= i < j < |todo| ==> todo[i] != todo[j])
    && (forall i :: i in before && i !in todo ==> Learned(before[i], now[i], trade(i)))
    && Reported(outs, before, now, todo)
  }

  lemma HalfwayAtStart(orders: map<Id, Record>, todo: seq<Id>, trade: Id -> Fill)
    requires Enumerates(todo, orders) && forall i, j :: 0 <= i < j < |todo| ==> todo[i] != todo[j]
    ensures Halfway([], orders, orders, todo, trade)
  {
  }

  lemma HalfwayMeans(outs: seq<Outcome>, before: map<Id, Record>, now: map<Id, Record>, todo: seq<Id>,
                     trade: Id -> Fill)
    requires Halfway(outs, before, now, todo, trade)
    ensures before.Keys == now.Keys && Reported(outs, before, now, todo)
    ensures forall i :: i in todo ==> i in now && now[i] == before[i]
    ensures forall i :: i in before && i !in todo ==> Learned(before[i], now[i], trade(i))
    ensures forall i :: i in before ==> now[i] == before[i] || Learned(before[i], now[i], trade(i))
  {
  }

  lemma HalfwayOnward(outs: seq<Outcome>, before: map<Id, Record>, mid: map<Id, Record>, now: map<Id, Record>,
                      id: Id, rest: seq<Id>, trade: Id -> Fill)
    requires Halfway(outs, before, mid, [id] + rest, trade)
    requires id in mid && now.Keys == mid.Keys && (forall i :: i in mid && i != id ==> now[i] == mid[i])
    requires Learned(mid[id], now[id], trade(id))
    ensures var more := if Terminal(before[id].state) then outs else outs + [Outcome(id, now[id].state, now[id].fill)];
      Halfway(more, before, now, rest, trade)
  {
    var todo := [id] + rest;
    assert todo[0] == id && forall k :: 0 <= k < |rest| ==> todo[k + 1] == rest[k];
    assert id !in rest;
    OneMoreReported(outs, before, mid, now, id, rest);
  }

  lemma OneMoreReported(outs: seq<Outcome>, before: map<Id, Record>, mid: map<Id, Record>, after: map<Id, Record>,
                        id: Id, rest: seq<Id>)
    requires Reported(outs, before, mid, [id] + rest) && id !in rest
    requires id in before && id in mid && mid[id] == before[id]
    requires after.Keys == mid.Keys && forall i :: i in mid && i != id ==> after[i] == mid[i]
    ensures var one := Outcome(id, after[id].state, after[id].fill);
      var now := if Terminal(before[id].state) then outs else outs + [one];
      Reported(now, before, after, rest)
  {
    var now := if Terminal(before[id].state) then outs else outs + [Outcome(id, after[id].state, after[id].fill)];
    forall i | i in before && !Terminal(before[i].state) && i !in rest ensures Mentions(now, i) {
      if i == id {
        assert now[|outs|].id == id;
      } else {
        assert Mentions(outs, i);
        var k :| 0 <= k < |outs| && outs[k].id == i;
        assert now[k].id == i;
      }
    }
  }

  // ---- journal.py ---------------------------------------------------------------------

  class Journal {
    var ledger: seq<Event>
    var state: Option<map<Id, Record>>

    constructor ()
      ensures ledger == [] && state == None
    {
      ledger, state := [], None;
    }

    function Saved(): map<Id, Record>
      reads this
    {
      if state.Some? then state.value else map[]
    }

    method AppendEvent(e: Event)
      modifies this`ledger
      ensures ledger == old(ledger) + [e]
    {
      ledger := ledger + [e];
    }

    method Checkpoint(orders: map<Id, Record>)
      modifies this`state
      ensures state == Some(orders)
    {
      state := Some(orders);
    }
  }

  // ---- the exchange ---------------------------------------------------------------------

  function RaisedBy(raises: nat -> bool, calls: nat): nat {
    if calls == 0 then 0 else RaisedBy(raises, calls - 1) + if raises(calls - 1) then 1 else 0
  }

  lemma {:induction false} RaisedGrows(raises: nat -> bool, k: nat, later: nat)
    requires k < later && raises(k)
    ensures RaisedBy(raises, later) > RaisedBy(raises, k)
  {
    if k + 1 < later {
      RaisedGrows(raises, k, later - 1);
    }
  }

  /** One exchange that behaves as the hypotheses say, choosing freely within them.
      The manager is proved against the contracts alone. */
  class Exchange {
    const raises: nat -> bool           // which calls raise what the manager does not catch
    const trade: Id -> Fill             // the fill its trade log gives for an id, once there is one
    var calls: nat
    var replies: seq<(Id, Reply)>       // what each POST was told
    var books: map<Id, Book>

    constructor (raises: nat -> bool, trade: Id -> Fill)
      ensures this.raises == raises && this.trade == trade && calls == 0 && replies == [] && books == map[]
    {
      this.raises, this.trade, calls, replies, books := raises, trade, 0, [], map[];
    }

    /** How many calls have raised so far. */
    ghost function Raised(): nat
      reads this`calls
    {
      RaisedBy(raises, calls)
    }

    function At(id: Id): Book
      reads this
    {
      if id in books then books[id] else NO_ORDERS
    }

    /** An order is created, now or later or not at all, and the reply arrives, or not. */
    method PlaceOrder(id: Id) returns (reply: Reply, fate: Fate)
      modifies this`books, this`calls, this`replies
      ensures replies == old(replies) + [(id, reply)]
      ensures calls == old(calls) + 1 && (reply.Escapes? <==> raises(old(calls)))
      ensures Raised() == old(Raised()) + if reply.Escapes? then 1 else 0
      ensures books == old(books)[id := Sent(old(At(id)), fate)]
      ensures old(At(id).Active()) ==> fate != Landed
      ensures reply.NotLanded? ==> fate == Lost && !old(At(id).Active()) && old(At(id)).underWay == 0
    {
      reply, fate := *, *;
      if raises(calls) != reply.Escapes? {
        reply := if raises(calls) then Escapes else Indeterminate;
      }
      if At(id).Active() && fate == Landed {
        fate := Lost;
      }
      if reply.NotLanded? && (fate != Lost || At(id).Active() || At(id).underWay > 0) {
        reply := Indeterminate;
      }
      books, calls, replies := books[id := Sent(At(id), fate)], calls + 1, replies + [(id, reply)];
    }

    /** The trade log of the id; or the lookup raises. */
    method Reconcile(id: Id) returns (found: Lookup)
      modifies this`calls
      ensures calls == old(calls) + 1 && (found.Raised? <==> raises(old(calls)))
      ensures Raised() == old(Raised()) + if found.Raised? then 1 else 0
      ensures found.NoFill? ==> At(id).executed == 0
      ensures found.Found? ==> At(id).executed > 0 && found.fill == trade(id)
    {
      found := if raises(calls) then Lookup.Raised else if At(id).executed > 0 then Found(trade(id)) else NoFill;
      calls := calls + 1;
    }

    /** What the exchange does on its own. */
    method Act(step: Step)
      requires step.Arrive? || step.Trade? || step.Cancel? || step.Complete?
      requires var b := At(step.id);
        if step.Arrive? then b.underWay > 0 else if step.Complete? then b.openTraded > 0 else b.open > 0
      modifies this`books
      ensures var b := old(At(step.id));
        books == old(books)[step.id :=
          if step.Arrive? then Arrived(b, step.opens)
          else if step.Trade? then Traded(b)
          else if step.Cancel? then b.(open := b.open - 1)
          else b.(openTraded := b.openTraded - 1)]
    {
      var b := At(step.id);
      if step.Arrive? {
        b := Arrived(b, step.opens);
      } else if step.Trade? {
        b := Traded(b);
      } else if step.Cancel? {
        b := b.(open := b.open - 1);
      } else {
        b := b.(openTraded := b.openTraded - 1);
      }
      books := books[step.id := b];
    }
  }

  /** Every POST since then was of this id, and was told nothing certain. */
  ghost predicate Uncertain(before: seq<(Id, Reply)>, now: seq<(Id, Reply)>, id: Id) {
    before <= now && forall k :: |before| <= k < |now| ==> now[k] == (id, Indeterminate)
  }

  /** What may be answered after the last POST got this reply, when no other follows. */
  ghost predicate Verdict(reply: Reply, answer: Option<OrderState>, spent: bool) {
    match reply
    case Handle(_) => answer.Some? ==> answer.value == OPEN || answer.value == FILLED
    case NotLanded => answer == Some(REJECTED)
    case Indeterminate => answer.Some? ==> answer.value == FILLED || (answer.value == UNKNOWN && spent)
    case Escapes => answer.None?
  }

  /** The POSTs of one submit and its answer: every POST but the last was told nothing certain,
      one that was acknowledged or refused is the last and decides the answer, and an uncertain
      order is given up only when the attempts are spent. */
  ghost predicate Told(before: seq<(Id, Reply)>, now: seq<(Id, Reply)>, id: Id, answer: Option<OrderState>,
                       spent: bool) {
    if now == before then
      answer.Some? ==> answer.value == OPEN || answer.value == FILLED || answer.value == REJECTED || spent
    else
      && now != [] && Uncertain(before, now[..|now| - 1], id) && now[|now| - 1].0 == id
      && Verdict(now[|now| - 1].1, answer, spent)
  }

  lemma NothingTold(replies: seq<(Id, Reply)>, id: Id)
    ensures Uncertain(replies, replies, id)
  {
  }

  /** Nothing was posted, and the answer is a certain one. */
  lemma ToldAtOnce(replies: seq<(Id, Reply)>, id: Id, answer: Option<OrderState>, spent: bool)
    requires answer.Some? ==> answer.value == OPEN || answer.value == FILLED || answer.value == REJECTED
    ensures Told(replies, replies, id, answer, spent)
  {
  }

  lemma OneMoreUncertain(before: seq<(Id, Reply)>, now: seq<(Id, Reply)>, id: Id)
    requires Uncertain(before, now, id)
    ensures Uncertain(before, now + [(id, Indeterminate)], id)
  {
  }

  lemma ToldLast(before: seq<(Id, Reply)>, now: seq<(Id, Reply)>, id: Id, reply: Reply, answer: Option<OrderState>,
                 spent: bool)
    requires Uncertain(before, now, id) && Verdict(reply, answer, false)
    ensures Told(before, now + [(id, reply)], id, answer, spent)
  {
    assert (now + [(id, reply)])[..|now|] == now;
  }

  lemma ToldNothing(before: seq<(Id, Reply)>, now: seq<(Id, Reply)>, id: Id, answer: Option<OrderState>)
    requires Uncertain(before, now, id) && (now != before ==> answer == Some(UNKNOWN))
    ensures Told(before, now, id, answer, true)
  {
    if now != before {
      var last := now[..|now| - 1];
      assert last + [now[|now| - 1]] == now && |before| <= |last| && before == last[..|before|];
    }
  }

  /** Whatever was told, an answer is a certain one or the attempts are spent. */
  lemma ToldConcludes(before: seq<(Id, Reply)>, now: seq<(Id, Reply)>, id: Id, answer: Option<OrderState>, spent: bool)
    requires Told(before, now, id, answer, spent)
    ensures answer.Some? ==> answer.value == OPEN || answer.value == FILLED || answer.value == REJECTED || spent
  {
  }

  /** The calls that the POSTs from the first n replies on come to: each of them, and a lookup after
      each that was acknowledged or timed out. */
  ghost function Calls(replies: seq<(Id, Reply)>, n: nat): nat {
    if |replies| <= n then 0
    else
      var last := replies[|replies| - 1].1;
      Calls(replies[..|replies| - 1], n) + if last.Handle? || last.Indeterminate? then 2 else 1
  }

  lemma NoMoreCalls(replies: seq<(Id, Reply)>)
    ensures Calls(replies, |replies|) == 0
  {
  }

  lemma OneMoreCall(replies: seq<(Id, Reply)>, x: (Id, Reply), n: nat)
    requires n <= |replies|
    ensures Calls(replies + [x], n) == Calls(replies, n) + if x.1.Handle? || x.1.Indeterminate? then 2 else 1
  {
    assert (replies + [x])[..|replies|] == replies;
  }

  function StateOf(out: Option<Outcome>): Option<OrderState> {
    if out.Some? then Some(out.value.state) else None
  }

  // ---- orders.py ---------------------------------------------------------------------------

  class OrderManager {
    const cap: nat
    const exchange: Exchange
    const journal: Journal
    var orders: map<Id, Record>
    var recovered: bool                 // recover() has returned; the code keeps no such flag
    var recoveries: nat                 // nor how often it did
    ghost var trace: Trace

    /** The objects are in the last state of the recorded run. */
    ghost predicate Follows()
      reads this, exchange, journal
    {
      && HonestRun(trace, cap) && trace.states != []
      && trace.Last().mem == orders && trace.Last().books == exchange.books
      && trace.Last().disk == journal.Saved() && trace.Last().ledger == journal.ledger
      && trace.Last().recovered == recovered
    }

    /** The records for which the next POST needs no lookup. */
    function Placing(): set<Id>
      reads this
    {
      set id | id in orders && orders[id].state == PLACING
    }

    /** Those that recover() has dealt with when these are still to do. */
    function Licensed(todo: seq<Id>): set<Id>
      reads this
    {
      set id | id in orders && orders[id].state == PLACING && (recovered || id !in todo)
    }

    /** Start, or restart: load the checkpoint.  The run so far ended anywhere; before the
        very first start nothing has happened. */
    constructor (cap: nat, exchange: Exchange, journal: Journal, ghost sofar: Trace)
      requires HonestRun(sofar, cap)
      requires sofar.Last().books == exchange.books
      requires sofar.Last().disk == journal.Saved() && sofar.Last().ledger == journal.ledger
      ensures this.cap == cap && this.exchange == exchange && this.journal == journal
      ensures Follows() && trace.Last().pc.Idle? && !recovered && recoveries == 0
      ensures trace == if sofar.steps == [] then sofar else sofar.Then(Crash)
      ensures orders == journal.Saved()
    {
      this.cap, this.exchange, this.journal, recovered, recoveries := cap, exchange, journal, false, 0;
      orders := if journal.state.Some? then journal.state.value else map[];
      trace := if sofar.steps == [] then sofar else sofar.Then(Crash);
      new;
      if sofar.steps != [] {
        Advance(sofar, cap, Crash);
      }
    }

    /** Between any two steps the exchange may act on its own, within the hypotheses. */
    method ExchangeActs(guarded: set<Id>)
      requires Follows() && forall id :: Window(trace.Last(), id) ==> id in guarded
      modifies this`trace, exchange`books
      ensures Follows() && Extends(old(trace), trace)
      ensures OnlyBooksMoved(old(trace.Last()), trace.Last())
    {
      var n: nat := *;
      while n > 0
        invariant Follows() && Extends(old(trace), trace)
        invariant OnlyBooksMoved(old(trace.Last()), trace.Last())
      {
        var step: Step := *;
        if step.Arrive? && exchange.At(step.id).underWay > 0 {
          ActOne(step.(opens := step.opens && !exchange.At(step.id).Active()));
        } else if (step.Trade? || step.Cancel?) && exchange.At(step.id).open > 0 {
          ActOne(step);
        } else if step.Complete? && exchange.At(step.id).openTraded > 0 && exchange.At(step.id).underWay == 0
                  && step.id !in guarded {
          ActOne(step);
        }
        n := n - 1;
      }
    }

    method ActOne(step: Step)
      requires Follows() && (step.Arrive? || step.Trade? || step.Cancel? || step.Complete?)
      requires match step
        case Arrive(id, opens) => exchange.At(id).underWay > 0 && (opens ==> !exchange.At(id).Active())
        case Complete(id) => exchange.At(id).openTraded > 0 && exchange.At(id).underWay == 0
            && !Window(trace.Last(), id)
        case _ => exchange.At(step.id).open > 0
      modifies this`trace, exchange`books
      ensures Follows() && Extends(old(trace), trace)
      ensures OnlyBooksMoved(old(trace.Last()), trace.Last())
    {
      Advance(trace, cap, step);
      exchange.Act(step);
      trace := trace.Then(step);
    }

    /** A step of the process that touches neither the exchange nor a durable file. */
    ghost method Internally(step: Step)
      requires Follows() && (step.Decide? || step.GiveUp? || step.StartRecover?
                             || (step.Submit? && step.id in orders) || step.Reconcile? || step.RecoverOne?)
      requires Allowed(trace.Last(), step)
      requires Apply(trace.Last(), step).mem == orders && Apply(trace.Last(), step).ledger == journal.ledger
      modifies this`trace
      ensures Follows() && Extends(old(trace), trace)
      ensures trace.Last() == Apply(old(trace.Last()), step)
    {
      hide Apply, Meets, Enabled, HonestRun;
      Advance(trace, cap, step);
      InternalStepsKeep(trace.Last(), step);
      trace := trace.Then(step);
    }

    /** Append the event, then write the checkpoint. */
    method Persist(id: Id, rec: Record, guarded: set<Id>, ghost step: Step, ghost after: After)
      requires Follows() && Allowed(trace.Last(), step)
      requires Apply(trace.Last(), step) == Put(trace.Last(), id, rec, after)
      requires forall i :: Window(Put(trace.Last(), id, rec, after), i) ==> i in guarded
      modifies this`orders, this`trace, exchange`books, journal
      ensures Follows() && Extends(old(trace), trace)
      ensures orders == old(orders)[id := rec]
      ensures trace.Last().pc == Resume(id, after)
      ensures trace.Last().posts == old(trace.Last().posts) && trace.Last().recovered == old(trace.Last().recovered)
    {
      Append(id, rec, step, after);
      ExchangeActs(guarded);
      WriteState();
    }

    method Append(id: Id, rec: Record, ghost step: Step, ghost after: After)
      requires Follows() && Allowed(trace.Last(), step)
      requires Apply(trace.Last(), step) == Put(trace.Last(), id, rec, after)
      modifies this`orders, this`trace, journal`ledger
      ensures Follows() && Extends(old(trace), trace)
      ensures orders == old(orders)[id := rec]
      ensures trace.Last() == Put(old(trace.Last()), id, rec, after)
    {
      Advance(trace, cap, step);
      orders := orders[id := rec];
      journal.AppendEvent(Event(id, rec));
      trace := trace.Then(step);
    }

    method WriteState()
      requires Follows() && trace.Last().pc.Saving?
      modifies this`trace, journal`state
      ensures Follows() && Extends(old(trace), trace)
      ensures trace.Last() == Apply(old(trace.Last()), WriteCheckpoint)
    {
      Advance(trace, cap, WriteCheckpoint);
      journal.Checkpoint(orders);
      trace := trace.Then(WriteCheckpoint);
    }

    /** Look the order up; on a fill, record it.  None when the lookup raises. */
    method TryFill(id: Id) returns (seen: Seen)
      requires Follows() && trace.Last().pc.Asking? && trace.Last().pc.id == id && id in orders
      modifies this`orders, this`trace, exchange`books, exchange`calls, journal
      ensures Follows() && Extends(old(trace), trace)
      ensures exchange.Raised() == old(exchange.Raised()) + if seen.LookupRaised? then 1 else 0
      ensures exchange.calls == old(exchange.calls) + 1
      ensures trace.Last().posts == old(trace.Last().posts) && trace.Last().recovered == old(trace.Last().recovered)
      ensures seen.LookupRaised? ==> trace.Last().pc.Idle? && orders == old(orders)
      ensures seen.Filled? ==> trace.Last().pc.Idle?
      ensures orders.Keys == old(orders).Keys && forall i :: i in orders && i != id ==> orders[i] == old(orders)[i]
      ensures seen.Filled? ==> orders[id] == old(orders)[id].(state := FILLED, fill := Some(exchange.trade(id)))
      ensures seen.Unfilled? ==> OnlyBooksMoved(old(trace.Last()), trace.Last()) && orders == old(orders)
      ensures seen.Unfilled? ==> exchange.At(id).executed == 0
    {
      hide Enabled, Apply, Meets, HonestRun;
      ExchangeActs(Placing());
      var found := exchange.Reconcile(id);
      ReconcileAllowed(trace.Last(), id, trace.Last().pc.max, found);
      match found
      case Raised =>
        Internally(Reconcile(found));
        return LookupRaised;
      case Found(f) =>
        Persist(id, orders[id].(state := FILLED, fill := Some(f)), Placing(), Reconcile(found), Done);
        return Filled;
      case NoFill =>
        return Unfilled;
    }

    /** One POST and the record of its outcome; false when the POST raised what nobody catches,
        and then only the count of attempts has moved. */
    method PlaceOnce(id: Id, ghost max: nat) returns (ok: bool, ghost reply: Reply)
      requires Follows() && trace.Last().pc == Posting(id, max) && id in orders && orders[id].attempts < max
      modifies this`orders, this`trace, exchange, journal
      ensures Follows() && Extends(old(trace), trace)
      ensures exchange.Raised() == old(exchange.Raised()) + if ok then 0 else 1
      ensures orders.Keys == old(orders).Keys && forall i :: i in orders && i != id ==> orders[i] == old(orders)[i]
      ensures exchange.calls == old(exchange.calls) + 1
      ensures exchange.replies == old(exchange.replies) + [(id, reply)]
      // acknowledged, refused, uncertain, or an exception
      ensures var tried := old(orders)[id].(attempts := old(orders)[id].attempts + 1);
        match reply
        case Handle(oid) => ok && orders[id] == tried.(state := SUBMITTED, oid := oid)
        case NotLanded => ok && orders[id] == tried.(state := REJECTED)
        case Indeterminate => ok && orders[id] == tried.(state := UNKNOWN)
        case Escapes => !ok && orders[id] == tried
      ensures ok ==> trace.Last().pc == (if orders[id].state == REJECTED then Idle else Asking(id, max))
      ensures !ok ==> trace.Last().pc == Answered(id, max, Escapes)
      ensures PostsOf(trace.Last(), id) == PostsOf(old(trace.Last()), id) + 1
      ensures trace.Last().recovered == old(trace.Last().recovered)
    {
      hide Enabled, Apply, Meets, HonestRun, RaisedBy, Terminal, Window;
      var answer := Send(id, max);
      ok, reply := !answer.Escapes?, answer;
      if ok {
        RecordOutcome(id, max, answer);
      }
    }

    /** The POST, whatever the exchange does before and after it. */
    method Send(id: Id, ghost max: nat) returns (reply: Reply)
      requires Follows() && trace.Last().pc == Posting(id, max) && id in orders && orders[id].attempts < max
      modifies this`orders, this`trace, exchange
      ensures Follows() && Extends(old(trace), trace)
      ensures exchange.calls == old(exchange.calls) + 1
      ensures exchange.replies == old(exchange.replies) + [(id, reply)]
      ensures exchange.Raised() == old(exchange.Raised()) + if reply.Escapes? then 1 else 0
      ensures orders == old(orders)[id := old(orders)[id].(attempts := old(orders)[id].attempts + 1)]
      ensures trace.Last().pc == Answered(id, max, reply)
      ensures PostsOf(trace.Last(), id) == PostsOf(old(trace.Last()), id) + 1
      ensures trace.Last().recovered == old(trace.Last().recovered)
    {
      hide Enabled, Apply, Meets, HonestRun, RaisedBy;
      ExchangeActs(Placing() + {id});
      reply := SendOrder(id, max);
      ExchangeActs(Placing() - {id});
    }

    method RecordOutcome(id: Id, ghost max: nat, reply: Reply)
      requires Follows() && trace.Last().pc == Answered(id, max, reply) && id in orders && !reply.Escapes?
      modifies this`orders, this`trace, exchange`books, journal
      ensures Follows() && Extends(old(trace), trace)
      ensures orders == old(orders)[id := OutcomeOf(old(orders)[id], reply)]
      ensures trace.Last().pc == (if reply.NotLanded? then Idle else Asking(id, max))
      ensures trace.Last().posts == old(trace.Last().posts) && trace.Last().recovered == old(trace.Last().recovered)
    {
      hide Enabled, Apply, Meets, HonestRun;
      WriteOutcomeAllowed(trace.Last(), id, max, reply);
      Persist(id, OutcomeOf(orders[id], reply), Placing() - {id}, WriteOutcome,
              if reply.NotLanded? then Done else ToAsk(max));
    }

    /** attempts += 1, then the POST itself. */
    method SendOrder(id: Id, ghost max: nat) returns (reply: Reply)
      requires Follows() && trace.Last().pc == Posting(id, max) && id in orders && orders[id].attempts < max
      modifies this`orders, this`trace, exchange
      ensures Follows() && Extends(old(trace), trace)
      ensures exchange.calls == old(exchange.calls) + 1
      ensures exchange.replies == old(exchange.replies) + [(id, reply)]
      ensures exchange.Raised() == old(exchange.Raised()) + if reply.Escapes? then 1 else 0
      ensures orders == old(orders)[id := old(orders)[id].(attempts := old(orders)[id].attempts + 1)]
      ensures trace.Last().pc == Answered(id, max, reply)
      ensures PostsOf(trace.Last(), id) == PostsOf(old(trace.Last()), id) + 1
      ensures trace.Last().recovered == old(trace.Last().recovered)
    {
      hide Enabled, Apply, Meets, HonestRun, RaisedBy, Window;
      orders := orders[id := orders[id].(attempts := orders[id].attempts + 1)];
      var fate: Fate;
      reply, fate := exchange.PlaceOrder(id);
      ghost var step := Post(reply, fate);
      PostAllowed(trace.Last(), id, max, reply, fate);
      Advance(trace, cap, step);
      trace := trace.Then(step);
    }

    /** The code after every lookup: stop with the fill, stop resting, or post (again). */
    method Look(id: Id, max: nat) returns (retry: bool, out: Option<Outcome>)
      requires Follows() && trace.Last().pc == Asking(id, max) && id in orders
      modifies this`orders, this`trace, exchange`books, exchange`calls, journal
      ensures Follows() && Extends(old(trace), trace)
      ensures exchange.Raised() == old(exchange.Raised()) + if !retry && out.None? then 1 else 0
      ensures exchange.calls == old(exchange.calls) + 1
      ensures orders.Keys == old(orders).Keys && forall i :: i in orders && i != id ==> orders[i] == old(orders)[i]
      ensures trace.Last().posts == old(trace.Last().posts) && trace.Last().recovered == old(trace.Last().recovered)
      ensures retry ==> orders == old(orders) && orders[id].state == UNKNOWN && trace.Last().pc == Posting(id, max)
      ensures !retry ==> trace.Last().pc.Idle?
      ensures !retry && out.Some? ==> out.value == Outcome(id, orders[id].state, orders[id].fill)
      ensures !retry && out.None? ==> orders == old(orders)
      // no fill: an order that was acknowledged is resting, an uncertain one is posted again
      ensures !retry && out.Some? ==>
                || orders[id] == old(orders)[id].(state := FILLED, fill := Some(exchange.trade(id)))
                || (old(orders)[id].state != UNKNOWN && orders[id] == old(orders)[id].(state := OPEN))
    {
      hide Enabled, Apply, Meets, HonestRun, RaisedBy, Window;
      var seen := TryFill(id);
      if seen.LookupRaised? {
        return false, None;
      }
      if seen.Filled? {
        return false, Some(Outcome(id, orders[id].state, orders[id].fill));
      }
      if orders[id].state != UNKNOWN {
        Rests(id, max);
        return false, Some(Outcome(id, orders[id].state, orders[id].fill));
      }
      ReconcileAllowed(trace.Last(), id, max, NoFill);
      Internally(Reconcile(NoFill));
      return true, None;
    }

    /** Landed and resting: never re-post. */
    method Rests(id: Id, ghost max: nat)
      requires Follows() && trace.Last().pc == Asking(id, max) && id in orders && orders[id].state != UNKNOWN
      requires exchange.At(id).executed == 0
      modifies this`orders, this`trace, exchange`books, journal
      ensures Follows() && Extends(old(trace), trace) && trace.Last().pc.Idle?
      ensures orders == old(orders)[id := old(orders)[id].(state := OPEN)]
      ensures trace.Last().posts == old(trace.Last().posts) && trace.Last().recovered == old(trace.Last().recovered)
    {
      hide Enabled, Apply, Meets, HonestRun;
      ReconcileAllowed(trace.Last(), id, max, NoFill);
      Persist(id, orders[id].(state := OPEN), Placing(), Reconcile(NoFill), Done);
    }

    ghost method DecideFirst(id: Id, max: nat)
      requires Follows() && trace.Last().pc == Deciding(id, max) && id in orders
      modifies this`trace
      ensures Follows() && Extends(old(trace), trace)
      ensures trace.Last().posts == old(trace.Last().posts) && trace.Last().recovered == old(trace.Last().recovered)
      ensures trace.Last().pc == (if Terminal(orders[id].state) then Idle
                                  else if orders[id].state == PLACING then Posting(id, max) else Asking(id, max))
    {
      Internally(Decide);
    }

    ghost method StopTrying(id: Id, max: nat)
      requires Follows() && trace.Last().pc == Posting(id, max) && id in orders && orders[id].attempts >= max
      modifies this`trace
      ensures Follows() && Extends(old(trace), trace) && trace.Last().pc.Idle?
      ensures trace.Last().posts == old(trace.Last().posts) && trace.Last().recovered == old(trace.Last().recovered)
      ensures PostsOf(trace.Last(), id) == PostsOf(old(trace.Last()), id)
    {
      Internally(GiveUp);
    }

    /** _resolve, from the record as it stands.  None exactly when a call to the exchange raised. */
    method Resolve(id: Id, max: nat) returns (out: Option<Outcome>)
      requires Follows() && trace.Last().pc == Deciding(id, max) && id in orders
      modifies this`orders, this`trace, exchange, journal
      ensures Follows() && Extends(old(trace), trace)
      ensures trace.Last().pc.Idle? || (out.None? && trace.Last().pc == Answered(id, max, Escapes))
      ensures exchange.Raised() == old(exchange.Raised()) + if out.None? then 1 else 0
      ensures trace.Last().recovered == old(trace.Last().recovered)
      ensures orders.Keys == old(orders).Keys && forall i :: i in orders && i != id ==> orders[i] == old(orders)[i]
      ensures out.Some? ==> out.value == Outcome(id, orders[id].state, orders[id].fill)
      ensures Told(old(exchange.replies), exchange.replies, id, StateOf(out), orders[id].attempts >= max)
      ensures out.Some? && out.value.state == FILLED && old(orders)[id].state != FILLED
          ==> out.value.fill == Some(exchange.trade(id))
      ensures orders[id].attempts == old(orders)[id].attempts + |exchange.replies| - |old(exchange.replies)|
      ensures Terminal(old(orders)[id].state) ==> out.Some? && orders == old(orders)
      ensures exchange.replies == old(exchange.replies) && StateOf(out) == Some(OPEN) ==>
                old(orders)[id].state == SUBMITTED || old(orders)[id].state == OPEN
      ensures exchange.replies == old(exchange.replies) && old(orders)[id].state == PLACING ==>
                orders[id].attempts >= max
      ensures exchange.calls == old(exchange.calls) + Calls(exchange.replies, |old(exchange.replies)|)
                                + if old(orders)[id].state == PLACING || Terminal(old(orders)[id].state) then 0 else 1
      ensures Settled(old(orders)[id].state) ==> PostsOf(trace.Last(), id) == PostsOf(old(trace.Last()), id)
      ensures PostsOf(trace.Last(), id) <= PostsOf(old(trace.Last()), id) + max
    {
      hide Enabled, Apply, Meets, HonestRun, RaisedBy, Window, Told, Uncertain, Verdict;
      var goOn: bool;
      goOn, out := Early(id, max);
      if goOn {
        out := Retry(id, max);
      } else {
        ToldAtOnce(exchange.replies, id, StateOf(out), orders[id].attempts >= max);
      }
    }

    /** The part before any POST: a terminal order is answered, one in flight is looked up. */
    method Early(id: Id, max: nat) returns (goOn: bool, out: Option<Outcome>)
      requires Follows() && trace.Last().pc == Deciding(id, max) && id in orders
      modifies this`orders, this`trace, exchange`books, exchange`calls, journal
      ensures Follows() && Extends(old(trace), trace)
      ensures trace.Last().posts == old(trace.Last().posts) && trace.Last().recovered == old(trace.Last().recovered)
      ensures exchange.Raised() == old(exchange.Raised()) + if !goOn && out.None? then 1 else 0
      ensures goOn ==> trace.Last().pc == Posting(id, max) && orders == old(orders)
      ensures goOn ==> orders[id].state == PLACING || orders[id].state == UNKNOWN
      ensures old(orders)[id].state == PLACING ==> goOn
      ensures exchange.calls == old(exchange.calls)
                                + if old(orders)[id].state == PLACING || Terminal(old(orders)[id].state) then 0 else 1
      ensures !goOn && out.Some? && out.value.state == OPEN ==>
                old(orders)[id].state == SUBMITTED || old(orders)[id].state == OPEN
      ensures !goOn ==> trace.Last().pc.Idle?
      ensures orders.Keys == old(orders).Keys && forall i :: i in orders && i != id ==> orders[i] == old(orders)[i]
      ensures orders[id].attempts == old(orders)[id].attempts
      ensures !goOn && out.Some? ==> out.value == Outcome(id, orders[id].state, orders[id].fill)
      ensures !goOn && out.Some? ==> out.value.state == OPEN || Terminal(out.value.state)
      ensures !goOn && out.Some? && out.value.state == FILLED && old(orders)[id].state != FILLED
          ==> out.value.fill == Some(exchange.trade(id))
      ensures Terminal(old(orders)[id].state) ==> !goOn && out.Some? && orders == old(orders)
    {
      hide Enabled, Apply, Meets, HonestRun, RaisedBy, Window;
      DecideFirst(id, max);
      if Terminal(orders[id].state) {
        return false, Some(Outcome(id, orders[id].state, orders[id].fill));
      }
      if orders[id].state == PLACING {
        return true, None;
      }
      goOn, out := Look(id, max);
    }

    /** Post, bounded, always with the same id. */
    method Retry(id: Id, max: nat) returns (out: Option<Outcome>)
      requires Follows() && trace.Last().pc == Posting(id, max) && id in orders
      requires orders[id].state == PLACING || orders[id].state == UNKNOWN
      modifies this`orders, this`trace, exchange, journal
      ensures Follows() && Extends(old(trace), trace)
      ensures trace.Last().pc.Idle? || (out.None? && trace.Last().pc == Answered(id, max, Escapes))
      ensures exchange.Raised() == old(exchange.Raised()) + if out.None? then 1 else 0
      ensures trace.Last().recovered == old(trace.Last().recovered)
      ensures orders.Keys == old(orders).Keys && forall i :: i in orders && i != id ==> orders[i] == old(orders)[i]
      ensures out.Some? ==> out.value == Outcome(id, orders[id].state, orders[id].fill)
      ensures Told(old(exchange.replies), exchange.replies, id, StateOf(out), orders[id].attempts >= max)
      ensures out.Some? && out.value.state == FILLED && old(orders)[id].state != FILLED
          ==> out.value.fill == Some(exchange.trade(id))
      ensures orders[id].attempts == old(orders)[id].attempts + |exchange.replies| - |old(exchange.replies)|
      ensures PostsOf(trace.Last(), id) <= PostsOf(old(trace.Last()), id) + max
      ensures exchange.replies == old(exchange.replies) ==> orders[id].attempts >= max && StateOf(out) != Some(OPEN)
      ensures exchange.calls == old(exchange.calls) + Calls(exchange.replies, |old(exchange.replies)|)
    {
      hide Enabled, Apply, Meets, HonestRun, Told, Uncertain, Verdict, RaisedBy, Window, Calls, Terminal, Settled,
           OnlyBooksMoved, PostsOf;
      ghost var first := PostsOf(trace.Last(), id) - orders[id].attempts;
      NothingTold(exchange.replies, id);
      NoMoreCalls(exchange.replies);
      while orders[id].attempts < max
        invariant Follows() && Extends(old(trace), trace)
        invariant trace.Last().pc == Posting(id, max)
        invariant trace.Last().recovered == old(trace.Last().recovered)
        invariant orders.Keys == old(orders).Keys && id in orders
        invariant forall i :: i in orders && i != id ==> orders[i] == old(orders)[i]
        invariant exchange.Raised() == old(exchange.Raised())
        invariant Uncertain(old(exchange.replies), exchange.replies, id)
        invariant exchange.calls == old(exchange.calls) + Calls(exchange.replies, |old(exchange.replies)|)
        invariant exchange.replies != old(exchange.replies) ==> orders[id].state == UNKNOWN
        invariant orders[id].attempts == old(orders)[id].attempts + |exchange.replies| - |old(exchange.replies)|
        invariant orders[id].state == old(orders)[id].state || orders[id].state == UNKNOWN
        invariant PostsOf(trace.Last(), id) == first + orders[id].attempts
        invariant orders[id].attempts == old(orders)[id].attempts || orders[id].attempts <= max
        decreases max - orders[id].attempts
      {
        ghost var asked := exchange.replies;
        ghost var reply: Reply;
        var again: bool;
        again, out, reply := Turn(id, max);
        OneMoreCall(asked, (id, reply), |old(exchange.replies)|);
        if !again {
          ToldLast(old(exchange.replies), asked, id, reply, StateOf(out), orders[id].attempts >= max);
          return;
        }
        OneMoreUncertain(old(exchange.replies), asked, id);
      }
      ToldNothing(old(exchange.replies), exchange.replies, id, Some(orders[id].state));
      StopTrying(id, max);
      return Some(Outcome(id, orders[id].state, orders[id].fill));
    }

    /** One turn of the loop: a POST, and what the lookup after it says. */
    method Turn(id: Id, max: nat) returns (again: bool, out: Option<Outcome>, ghost reply: Reply)
      requires Follows() && trace.Last().pc == Posting(id, max) && id in orders && orders[id].attempts < max
      requires orders[id].state == PLACING || orders[id].state == UNKNOWN
      modifies this`orders, this`trace, exchange, journal
      ensures id in orders && orders[id].attempts == old(orders)[id].attempts + 1
      ensures Follows() && Extends(old(trace), trace)
      ensures again ==> trace.Last().pc == Posting(id, max) && reply == Indeterminate && orders[id].state == UNKNOWN
      ensures !again ==> trace.Last().pc.Idle? || (out.None? && trace.Last().pc == Answered(id, max, Escapes))
      ensures trace.Last().recovered == old(trace.Last().recovered)
      ensures PostsOf(trace.Last(), id) == PostsOf(old(trace.Last()), id) + 1
      ensures exchange.Raised() == old(exchange.Raised()) + if !again && out.None? then 1 else 0
      ensures exchange.replies == old(exchange.replies) + [(id, reply)]
      ensures exchange.calls == old(exchange.calls) + if reply.Handle? || reply.Indeterminate? then 2 else 1
      ensures orders.Keys == old(orders).Keys && forall i :: i in orders && i != id ==> orders[i] == old(orders)[i]
      ensures !again ==> Verdict(reply, StateOf(out), false)
      ensures !again && out.Some? ==> out.value == Outcome(id, orders[id].state, orders[id].fill)
      ensures !again && out.Some? && out.value.state == FILLED ==> out.value.fill == Some(exchange.trade(id))
    {
      hide Enabled, Apply, Meets, HonestRun, RaisedBy, Window;
      var ok: bool;
      ok, reply := PlaceOnce(id, max);
      if !ok {
        return false, None, reply;
      }
      if orders[id].state == REJECTED {
        return false, Some(Outcome(id, orders[id].state, orders[id].fill)), reply;
      }
      again, out := Look(id, max);
    }

    /** The record for a new id is on disk before anything else happens to it. */
    method Enter(id: Id, max: nat)
      requires Follows() && trace.Last().pc.Idle? && trace.Last().recovered && max <= cap
      modifies this`orders, this`trace, exchange`books, journal
      ensures Follows() && Extends(old(trace), trace)
      ensures trace.Last().pc == Deciding(id, max) && trace.Last().recovered
      ensures trace.Last().posts == old(trace.Last().posts)
      ensures orders == if id in old(orders) then old(orders) else old(orders)[id := NEW_RECORD]
    {
      ghost var step := OrderProtocol.Step.Submit(id, max);
      ReachablePostBound(trace, cap, |trace.states| - 1, id);
      assert forall h :: Meets(h, trace.Last(), step);
      if id !in orders {
        Persist(id, NEW_RECORD, Placing() + {id}, step, ToResolve(max));
      } else {
        Internally(step);
      }
    }

    /** Idempotently drive one logical order. */
    method Submit(id: Id, max: nat) returns (out: Option<Outcome>)
      requires Follows() && trace.Last().pc.Idle? && trace.Last().recovered && max <= cap
      modifies this`orders, this`trace, exchange, journal
      ensures Follows() && Extends(old(trace), trace) && trace.Last().recovered
      // no answer exactly when a call to the exchange raised; a POST that raised ends the process
      ensures exchange.Raised() == old(exchange.Raised()) + if out.None? then 1 else 0
      ensures trace.Last().pc.Idle? || (out.None? && trace.Last().pc == Answered(id, max, Escapes))
      // only this record changes, and the answer is what it now says
      ensures orders.Keys == old(orders).Keys + {id}
      ensures forall i :: i in old(orders) && i != id ==> orders[i] == old(orders)[i]
      ensures out.Some? ==> out.value == Outcome(id, orders[id].state, orders[id].fill)
      // a terminal order replays its result
      ensures id in old(orders) && Terminal(old(orders)[id].state) ==>
                out == Some(Outcome(id, old(orders)[id].state, old(orders)[id].fill)) && orders == old(orders)
      // what the exchange replied decides the answer, and each POST is one attempt
      ensures Told(old(exchange.replies), exchange.replies, id, StateOf(out), orders[id].attempts >= max)
      ensures orders[id].attempts == |exchange.replies| - |old(exchange.replies)|
                                     + if id in old(orders) then old(orders)[id].attempts else 0
      ensures out.Some? && out.value.state == FILLED && !(id in old(orders) && old(orders)[id].state == FILLED)
          ==> out.value.fill == Some(exchange.trade(id))
      // nothing is looked up before the first POST of a new order, one call comes first for an order
      // in flight, and every POST but one that was refused or raised is followed by a lookup
      ensures var first := id in old(orders) && old(orders)[id].state != PLACING && !Terminal(old(orders)[id].state);
        exchange.calls == old(exchange.calls) + (if first then 1 else 0)
                          + Calls(exchange.replies, |old(exchange.replies)|)
      // without a POST: a new order has no attempts left, and what is resting was acknowledged before
      ensures exchange.replies == old(exchange.replies) && (id in old(orders) ==> old(orders)[id].state == PLACING)
          ==> orders[id].attempts >= max
      ensures exchange.replies == old(exchange.replies) && StateOf(out) == Some(OPEN)
          ==> id in old(orders) && (old(orders)[id].state == SUBMITTED || old(orders)[id].state == OPEN)
      // an order known to have reached the exchange is never sent again
      ensures id in old(orders) && Settled(old(orders)[id].state) ==>
                PostsOf(trace.Last(), id) == PostsOf(old(trace.Last()), id)
      ensures PostsOf(trace.Last(), id) <= PostsOf(old(trace.Last()), id) + max
      // and the answer is the truth about the exchange
      ensures exchange.At(id).executed <= 1
      ensures out.Some? && out.value.state == FILLED ==> exchange.At(id).executed == 1
      ensures out.Some? && out.value.state == REJECTED ==> exchange.At(id) == NO_ORDERS
    {
      hide Enabled, Apply, Meets;
      Enter(id, max);
      ghost var before := trace;
      out := Resolve(id, max);
      TruthAtTheEnd(trace, cap, id);
      assert Extends(old(trace), before) && Extends(before, trace);
    }

    /** The ids, each once, in any order. */
    method Ids() returns (ids: seq<Id>)
      ensures Enumerates(ids, orders) && forall i, j :: 0 <= i < j < |ids| ==> ids[i] != ids[j]
    {
      ids := [];
      var left := orders.Keys;
      while left != {}
        invariant left <= orders.Keys
        invariant forall id :: id in ids <==> id in orders && id !in left
        invariant forall i, j :: 0 <= i < j < |ids| ==> ids[i] != ids[j]
        decreases left
      {
        var id :| id in left;
        ids, left := ids + [id], left - {id};
      }
    }

    /** After a restart, learn the fate of every order in flight, by one lookup for each.  None
        exactly when one of them raised: recover is then left halfway and the process ends. */
    method Recover() returns (outs: Option<seq<Outcome>>)
      requires Follows() && trace.Last().pc.Idle?
      modifies this`orders, this`trace, this`recovered, this`recoveries, exchange`books, exchange`calls, journal
      ensures Follows() && Extends(old(trace), trace)
      ensures exchange.Raised() == old(exchange.Raised()) + if outs.None? then 1 else 0
      ensures outs.Some? ==> exchange.calls == old(exchange.calls) + |outs.value|
      ensures InFlight(old(orders)) && exchange.raises(old(exchange.calls)) ==> outs.None?
      ensures recoveries == old(recoveries) + if outs.Some? then 1 else 0
      ensures outs.Some? ==> trace.Last().pc.Idle? && trace.Last().recovered
      ensures outs.Some? ==> Reported(outs.value, old(orders), orders, [])
      ensures trace.Last().posts == old(trace.Last().posts)
      ensures orders.Keys == old(orders).Keys
      ensures forall i :: i in orders ==>
                || Learned(old(orders)[i], orders[i], exchange.trade(i))
                || (outs.None? && orders[i] == old(orders)[i])
    {
      hide Enabled, Apply, Meets, HonestRun, Learned, Reported, Halfway, Enumerates, RaisedBy, InFlight;
      var todo := Ids();
      BeginRecover(todo);
      HalfwayAtStart(orders, todo, exchange.trade);
      outs := LearnAll(todo);
      if outs.None? {
        return;
      }
      HalfwayMeans(outs.value, old(orders), orders, [], exchange.trade);
      if InFlight(old(orders)) {
        InFlightIsReported(outs.value, old(orders), orders);
      }
      if outs.value != [] && exchange.raises(old(exchange.calls)) {
        RaisedGrows(exchange.raises, old(exchange.calls), exchange.calls);
      }
      EndRecover();
    }

    /** recover's loop. */
    method LearnAll(ids: seq<Id>) returns (outs: Option<seq<Outcome>>)
      requires Follows() && trace.Last().pc == Recovering(ids) && Halfway([], orders, orders, ids, exchange.trade)
      modifies this`orders, this`trace, exchange`books, exchange`calls, journal
      ensures Follows() && Extends(old(trace), trace)
      ensures exchange.Raised() == old(exchange.Raised()) + if outs.None? then 1 else 0
      ensures outs.Some? ==> exchange.calls == old(exchange.calls) + |outs.value|
      ensures outs.Some? ==> trace.Last().pc == Recovering([])
      ensures outs.Some? ==> Halfway(outs.value, old(orders), orders, [], exchange.trade)
      ensures trace.Last().posts == old(trace.Last().posts)
      ensures orders.Keys == old(orders).Keys
      ensures forall i :: i in orders ==>
                orders[i] == old(orders)[i] || Learned(old(orders)[i], orders[i], exchange.trade(i))
    {
      hide Enabled, Apply, Meets, HonestRun, Learned, Reported, Halfway, Enumerates, RaisedBy;
      var todo, out := ids, [];
      while todo != []
        invariant Follows() && Extends(old(trace), trace)
        invariant trace.Last().pc == Recovering(todo)
        invariant trace.Last().posts == old(trace.Last().posts)
        invariant Halfway(out, old(orders), orders, todo, exchange.trade)
        invariant exchange.Raised() == old(exchange.Raised()) && exchange.calls == old(exchange.calls) + |out|
        decreases |todo|
      {
        var id := todo[0];
        var rest := todo[1..];
        assert todo == [id] + rest;
        ghost var mid := orders;
        HalfwayMeans(out, old(orders), orders, todo, exchange.trade);
        var settled := Terminal(orders[id].state);
        var ok := RecoverOne(id, rest);
        if !ok {
          assert orders == mid;
          return None;
        }
        HalfwayOnward(out, old(orders), mid, orders, id, rest, exchange.trade);
        if !settled {
          out := out + [Outcome(id, orders[id].state, orders[id].fill)];
        }
        todo := rest;
      }
      HalfwayMeans(out, old(orders), orders, todo, exchange.trade);
      return Some(out);
    }

    ghost method BeginRecover(ids: seq<Id>)
      requires Follows() && trace.Last().pc.Idle? && Enumerates(ids, orders)
      modifies this`trace
      ensures Follows() && Extends(old(trace), trace)
      ensures trace.Last() == old(trace.Last()).(pc := Recovering(ids))
    {
      Internally(StartRecover(ids));
    }

    method EndRecover()
      requires Follows() && trace.Last().pc == Recovering([])
      modifies this`trace, this`recovered, this`recoveries
      ensures Follows() && Extends(old(trace), trace)
      ensures trace.Last() == old(trace.Last()).(pc := Idle, recovered := true) && recoveries == old(recoveries) + 1
    {
      Advance(trace, cap, FinishRecover);
      trace, recovered, recoveries := trace.Then(FinishRecover), true, recoveries + 1;
    }

    /** One turn of recover's loop; false when the lookup raised. */
    method RecoverOne(id: Id, rest: seq<Id>) returns (ok: bool)
      requires Follows() && trace.Last().pc == Recovering([id] + rest) && id in orders
      modifies this`orders, this`trace, exchange`books, exchange`calls, journal
      ensures Follows() && Extends(old(trace), trace)
      ensures exchange.Raised() == old(exchange.Raised()) + if ok then 0 else 1
      ensures exchange.calls == old(exchange.calls) + if Terminal(old(orders)[id].state) then 0 else 1
      ensures ok ==> trace.Last().pc == Recovering(rest)
      ensures trace.Last().posts == old(trace.Last().posts)
      ensures orders.Keys == old(orders).Keys && forall i :: i in orders && i != id ==> orders[i] == old(orders)[i]
      ensures if ok then Learned(old(orders)[id], orders[id], exchange.trade(id)) else orders == old(orders)
    {
      hide Enabled, Apply, Meets, HonestRun;
      var rec := orders[id];
      if Terminal(rec.state) {
        SkipTerminal(id, rest);
        return true;
      }
      ExchangeActs(Licensed([id] + rest));
      var found := exchange.Reconcile(id);
      if found.Raised? {
        return false;
      }
      LearnFrom(id, rest, found);
      return true;
    }

    /** What the lookup said, on the record. */
    method LearnFrom(id: Id, rest: seq<Id>, found: Lookup)
      requires Follows() && trace.Last().pc == Recovering([id] + rest) && id in orders
      requires !Terminal(orders[id].state) && !found.Raised?
      requires found.NoFill? ==> exchange.At(id).executed == 0
      requires found.Found? ==> exchange.At(id).executed > 0
      modifies this`orders, this`trace, exchange`books, journal
      ensures Follows() && Extends(old(trace), trace)
      ensures trace.Last().pc == Recovering(rest) && trace.Last().posts == old(trace.Last().posts)
      ensures orders.Keys == old(orders).Keys && forall i :: i in orders && i != id ==> orders[i] == old(orders)[i]
      ensures orders[id] == if found.Found? then old(orders)[id].(state := FILLED, fill := Some(found.fill))
                            else if old(orders)[id].oid.Some? then old(orders)[id].(state := OPEN)
                            else old(orders)[id]
    {
      hide Enabled, Apply, Meets, HonestRun;
      var rec := orders[id];
      ghost var step := OrderProtocol.Step.RecoverOne(found);
      RecoverAllowed(trace.Last(), id, rest, found);
      if found.Found? {
        Persist(id, rec.(state := FILLED, fill := Some(found.fill)), Licensed(rest), step, ToRecover(rest));
      } else if rec.oid.Some? {
        Persist(id, rec.(state := OPEN), Licensed(rest), step, ToRecover(rest));
      } else {
        Internally(step);
      }
    }

    ghost method SkipTerminal(id: Id, rest: seq<Id>)
      requires Follows() && trace.Last().pc == Recovering([id] + rest) && id in orders && Terminal(orders[id].state)
      modifies this`trace
      ensures Follows() && Extends(old(trace), trace)
      ensures trace.Last() == old(trace.Last()).(pc := Recovering(rest))
    {
      assert ([id] + rest)[1..] == rest;
      Internally(OrderProtocol.Step.RecoverOne(NoFill));
    }
  }
}
