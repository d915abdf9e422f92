/** The order protocol of treasuryforge/orders.py as a labelled transition system:
    one process, its two durable files, and a hostile exchange.  Every call out of
    the process and every durable write is a step of its own, so that a crash can
    fall between any two of them.  A request that times out may reach the exchange later,
    at any time, or never.

    The steps follow the code, not its own state diagram: a record in PLACING is
    posted without a lookup, and UNKNOWN goes to SUBMITTED or REJECTED by a retry. */
module OrderProtocol {
  import opened Wrappers

  type Id = string

  datatype Fill = Fill(baseAmount: real, price: real, fee: real, ts: int)

  datatype OrderState = PLACING | SUBMITTED | UNKNOWN | OPEN | FILLED | REJECTED

  datatype Record = Record(state: OrderState, oid: Option<string>, attempts: nat, fill: Option<Fill>)

  datatype Event = Event(id: Id, rec: Record)

  predicate Terminal(st: OrderState) {
    st == FILLED || st == REJECTED
  }

  /** What a checkpoint must show for the id never to be posted again. */
  predicate Settled(st: OrderState) {
    st == SUBMITTED || st == OPEN || st == FILLED || st == REJECTED
  }

  const NEW_RECORD := Record(PLACING, None, 0, None)

  // ---- the exchange ---------------------------------------------------------

  /** Orders of one id: open ones without and with trades, how many different orders have
      ever traded, and the requests still under way to the exchange. */
  datatype Book = Book(open: nat, openTraded: nat, executed: nat, underWay: nat) {
    predicate Active() {
      open + openTraded > 0
    }
  }

  const NO_ORDERS := Book(0, 0, 0, 0)

  /** What becomes of a request: it makes an order at once, never does, or is still on its
      way when the call returns. */
  datatype Fate = Landed | Lost | UnderWay

  /** Escapes is an exception the manager does not catch: the process ends on it. */
  datatype Reply = Handle(oid: Option<string>) | NotLanded | Indeterminate | Escapes

  datatype Lookup = Found(fill: Fill) | NoFill | Raised

  // ---- the process -----------------------------------------------------------

  /** Where a checkpoint write returns to. */
  datatype After = ToResolve(max: nat) | ToAsk(max: nat) | ToRecover(todo: seq<Id>) | Done

  /** Where the manager is: the next call or write it makes. */
  datatype Pc =
    | Idle
    | Saving(id: Id, after: After)          // event appended, checkpoint not yet written
    | Deciding(id: Id, max: nat)            // entering _resolve
    | Asking(id: Id, max: nat)              // about to reconcile
    | Posting(id: Id, max: nat)             // at the head of the retry loop
    | Answered(id: Id, max: nat, reply: Reply)   // POST returned, outcome not yet written
    | Recovering(todo: seq<Id>)

  datatype State = State(
    pc: Pc,
    mem: map<Id, Record>,                   // _orders
    disk: map<Id, Record>,                  // the checkpoint
    ledger: seq<Event>,
    books: map<Id, Book>,
    posts: map<Id, nat>,
    crashes: nat,
    recovered: bool,                        // recover() has returned since the last restart
    cap: nat)                               // no submit asks for more attempts than this

  datatype Step =
    | Submit(id: Id, max: nat)
    | WriteCheckpoint
    | Decide
    | Reconcile(found: Lookup)
    | Post(reply: Reply, fate: Fate)
    | Arrive(id: Id, opens: bool)           // a request under way gets there, and may make an order
    | GiveUp
    | WriteOutcome
    | StartRecover(ids: seq<Id>)
    | RecoverOne(found: Lookup)
    | FinishRecover
    | Trade(id: Id)                         // an open order trades for the first time
    | Cancel(id: Id)                        // an open order ends without a trade
    | Complete(id: Id)                      // an order that traded leaves the book
    | Crash

  function BookOf(s: State, id: Id): Book {
    if id in s.books then s.books[id] else NO_ORDERS
  }

  function PostsOf(s: State, id: Id): nat {
    if id in s.posts then s.posts[id] else 0
  }

  function Init(cap: nat): State {
    State(Idle, map[], map[], [], map[], map[], 0, false, cap)
  }

  /** _persist up to and including the append. */
  function Put(s: State, id: Id, rec: Record, after: After): State {
    s.(mem := s.mem[id := rec], ledger := s.ledger + [Event(id, rec)], pc := Saving(id, after))
  }

  function Resume(id: Id, after: After): Pc {
    match after
    case ToResolve(max) => Deciding(id, max)
    case ToAsk(max) => Asking(id, max)
    case ToRecover(todo) => Recovering(todo)
    case Done => Idle
  }

  ghost predicate Enumerates(ids: seq<Id>, m: map<Id, Record>) {
    forall id :: id in ids <==> id in m
  }

  /** The steps possible at all; nothing is assumed of the exchange here. */
  ghost predicate Enabled(s: State, step: Step) {
    match step
    case Submit(id, max) => s.pc.Idle? && max <= s.cap
    case WriteCheckpoint => s.pc.Saving?
    case Decide => s.pc.Deciding? && s.pc.id in s.mem
    case Reconcile(found) => s.pc.Asking? && s.pc.id in s.mem
    case Post(reply, fate) => s.pc.Posting? && s.pc.id in s.mem && s.mem[s.pc.id].attempts < s.pc.max
    case GiveUp => s.pc.Posting? && s.pc.id in s.mem && s.mem[s.pc.id].attempts >= s.pc.max
    case WriteOutcome => s.pc.Answered? && s.pc.id in s.mem && !s.pc.reply.Escapes?
    case StartRecover(ids) => s.pc.Idle? && Enumerates(ids, s.mem)
    case RecoverOne(found) =>
      s.pc.Recovering? && s.pc.todo != [] && s.pc.todo[0] in s.mem
      && (Terminal(s.mem[s.pc.todo[0]].state) || !found.Raised?)
    case FinishRecover => s.pc.Recovering? && s.pc.todo == []
    case Arrive(id, opens) => BookOf(s, id).underWay > 0
    case Trade(id) => BookOf(s, id).open > 0
    case Cancel(id) => BookOf(s, id).open > 0
    case Complete(id) => BookOf(s, id).openTraded > 0
    case Crash => true
  }

  function Sent(b: Book, fate: Fate): Book {
    match fate
    case Landed => b.(open := b.open + 1)
    case Lost => b
    case UnderWay => b.(underWay := b.underWay + 1)
  }

  function Arrived(b: Book, opens: bool): Book
    requires b.underWay > 0
  {
    b.(underWay := b.underWay - 1, open := if opens then b.open + 1 else b.open)
  }

  function Traded(b: Book): Book
    requires b.open > 0
  {
    b.(open := b.open - 1, openTraded := b.openTraded + 1, executed := b.executed + 1)
  }

  function AfterReconcile(s: State, id: Id, max: nat, rec: Record, found: Lookup): State {
    match found
    case Found(f) => Put(s, id, rec.(state := FILLED, fill := Some(f)), Done)
    case NoFill =>
      if rec.state == UNKNOWN then s.(pc := Posting(id, max)) else Put(s, id, rec.(state := OPEN), Done)
    case Raised => s.(pc := Idle)
  }

  function OutcomeOf(rec: Record, reply: Reply): Record
    requires !reply.Escapes?
  {
    match reply
    case Handle(oid) => rec.(state := SUBMITTED, oid := oid)
    case NotLanded => rec.(state := REJECTED)
    case Indeterminate => rec.(state := UNKNOWN)
  }

  function AfterRecover(s: State, id: Id, rest: seq<Id>, rec: Record, found: Lookup): State
    requires Terminal(rec.state) || !found.Raised?
  {
    if Terminal(rec.state) then s.(pc := Recovering(rest))
    else match found
      case Found(f) => Put(s, id, rec.(state := FILLED, fill := Some(f)), ToRecover(rest))
      case NoFill =>
        if rec.oid.Some? then Put(s, id, rec.(state := OPEN), ToRecover(rest)) else s.(pc := Recovering(rest))
  }

  ghost function Apply(s: State, step: Step): State
    requires Enabled(s, step)
  {
    match step
    case Submit(id, max) =>
      if id in s.mem then s.(pc := Deciding(id, max)) else Put(s, id, NEW_RECORD, ToResolve(max))
    case WriteCheckpoint =>
      s.(disk := s.mem, pc := Resume(s.pc.id, s.pc.after))
    case Decide =>
      var st := s.mem[s.pc.id].state;
      s.(pc := if Terminal(st) then Idle
               else if st == PLACING then Posting(s.pc.id, s.pc.max) else Asking(s.pc.id, s.pc.max))
    case Reconcile(found) => AfterReconcile(s, s.pc.id, s.pc.max, s.mem[s.pc.id], found)
    case Post(reply, fate) =>
      var id, rec := s.pc.id, s.mem[s.pc.id];
      s.(mem := s.mem[id := rec.(attempts := rec.attempts + 1)],
         posts := s.posts[id := PostsOf(s, id) + 1],
         books := s.books[id := Sent(BookOf(s, id), fate)],
         pc := Answered(id, s.pc.max, reply))
    case GiveUp => s.(pc := Idle)
    case WriteOutcome =>
      Put(s, s.pc.id, OutcomeOf(s.mem[s.pc.id], s.pc.reply),
          if s.pc.reply.NotLanded? then Done else ToAsk(s.pc.max))
    case StartRecover(ids) => s.(pc := Recovering(ids))
    case RecoverOne(found) => AfterRecover(s, s.pc.todo[0], s.pc.todo[1..], s.mem[s.pc.todo[0]], found)
    case FinishRecover => s.(pc := Idle, recovered := true)
    case Arrive(id, opens) => s.(books := s.books[id := Arrived(BookOf(s, id), opens)])
    case Trade(id) => s.(books := s.books[id := Traded(BookOf(s, id))])
    case Cancel(id) =>
      var b := BookOf(s, id);
      s.(books := s.books[id := b.(open := b.open - 1)])
    case Complete(id) =>
      var b := BookOf(s, id);
      s.(books := s.books[id := b.(openTraded := b.openTraded - 1)])
    case Crash =>
      s.(mem := s.disk, pc := Idle, recovered := false, crashes := s.crashes + 1)
  }

  // ---- what the code relies on ----------------------------------------------------

  /** The id a step looks up, when it looks one up. */
  function Asked(s: State, step: Step): Option<Id> {
    if step.Reconcile? && s.pc.Asking? then Some(s.pc.id)
    else if step.RecoverOne? && s.pc.Recovering? && s.pc.todo != [] && s.pc.todo[0] in s.mem
            && !Terminal(s.mem[s.pc.todo[0]].state)
    then Some(s.pc.todo[0])
    else None
  }

  function Answer(step: Step): Lookup {
    match step
    case Reconcile(found) => found
    case RecoverOne(found) => found
    case _ => Raised
  }

  /** "Unfilled" means that no order of the id has traded, and a fill that one has. */
  predicate AuthoritativeLookup(s: State, step: Step) {
    Asked(s, step).Some? ==>
      var b := BookOf(s, Asked(s, step).value);
      (Answer(step).NoFill? ==> b.executed == 0) && (Answer(step).Found? ==> b.executed > 0)
  }

  /** A request that meets an open order of its id makes no second one. */
  predicate ActiveDeduplicated(s: State, step: Step) {
    && (step.Post? && s.pc.Posting? && BookOf(s, s.pc.id).Active() ==> step.fate != Landed)
    && (step.Arrive? && BookOf(s, step.id).Active() ==> !step.opens)
  }

  /** A "definitely not landed" error means what it says: nothing landed, and nothing of
      the id is open or under way. */
  predicate RejectionTruthful(s: State, step: Step) {
    step.Post? && s.pc.Posting? && step.reply.NotLanded? ==>
      step.fate == Lost && !BookOf(s, s.pc.id).Active() && BookOf(s, s.pc.id).underWay == 0
  }

  /** Between the lookup that found nothing and the POST it licenses.  A record still
      in PLACING is licensed by recover(), however long ago that was. */
  predicate Window(s: State, id: Id) {
    || (s.pc.Posting? && s.pc.id == id)
    || (id in s.mem && s.mem[id].state == PLACING && !(s.pc.Answered? && s.pc.id == id)
        && (s.recovered
            || (s.pc.Recovering? && id !in s.pc.todo)
            || (s.pc.Saving? && s.pc.after.ToRecover? && id !in s.pc.after.todo)))
  }

  /** No order that traded leaves the book inside that window. */
  predicate QuietWindow(s: State, step: Step) {
    step.Complete? ==> !Window(s, step.id)
  }

  /** A request still under way finds an order that traded still on the book: none leaves it
      before every request of its id has arrived or is lost. */
  predicate ArrivalsInTime(s: State, step: Step) {
    step.Complete? ==> BookOf(s, step.id).underWay == 0
  }

  /** recover() has returned since the last restart before anything is submitted. */
  predicate RecoverFirst(s: State, step: Step) {
    step.Submit? ==> s.recovered
  }

  datatype Hypothesis = Lookups | Deduplication | Rejections | Quiet | Arrivals | Recovery

  predicate Meets(h: Hypothesis, s: State, step: Step) {
    match h
    case Lookups => AuthoritativeLookup(s, step)
    case Deduplication => ActiveDeduplicated(s, step)
    case Rejections => RejectionTruthful(s, step)
    case Quiet => QuietWindow(s, step)
    case Arrivals => ArrivalsInTime(s, step)
    case Recovery => RecoverFirst(s, step)
  }

  // ---- runs --------------------------------------------------------------------------

  datatype Trace = Trace(states: seq<State>, steps: seq<Step>) {
    ghost predicate IsRun() {
      && |states| == |steps| + 1
      && forall i :: 0 <= i < |steps| ==> Enabled(states[i], steps[i]) && states[i + 1] == Apply(states[i], steps[i])
    }

    ghost predicate From(cap: nat) {
      IsRun() && states[0] == Init(cap)
    }

    ghost predicate Obeys(h: Hypothesis)
      requires |steps| <= |states|
    {
      forall i :: 0 <= i < |steps| ==> Meets(h, states[i], steps[i])
    }

    ghost function Last(): State
      requires states != []
    {
      states[|states| - 1]
    }

    ghost function Then(step: Step): Trace
      requires states != [] && Enabled(Last(), step)
    {
      Trace(states + [Apply(Last(), step)], steps + [step])
    }
  }
}
