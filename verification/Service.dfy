/** treasuryforge/service.py: start, recover, then step through the feed, failing closed. */
module Service {
  import opened OrderProtocol
  import opened Wrappers
  import opened OrderHypotheses
  import opened OrderLedger
  import opened Orders

  datatype ServiceExit = OK | SAFE_HALTED | DEAD_MAN | ERROR

  /** What one turn of the guarded step comes to: the switch is tripped, the step raised before
      any order, no order is wanted or allowed, or an order is driven under an id. */
  datatype Turn = Dead | Raises | NoOrder | Order(id: Id)

  class Service {
    const orders: OrderManager
    var steps: seq<Turn>
    var halts: nat

    constructor (orders: OrderManager)
      ensures this.orders == orders && steps == [] && halts == 0
    {
      this.orders, steps, halts := orders, [], 0;
    }

    /** Fire the fail-safe. */
    method OnHalt()
      modifies this`halts
      ensures halts == old(halts) + 1
    {
      halts := halts + 1;
    }

    /** The last turn taken found the switch tripped. */
    predicate SwitchedOff()
      reads this`steps
    {
      steps != [] && steps[|steps| - 1].Dead?
    }

    /** The order is known to rest, to be filled or to be refused, or its attempts are spent. */
    predicate Concluded(id: Id, max: nat)
      reads orders
    {
      id in orders.orders
      && (orders.orders[id].state == OPEN || Terminal(orders.orders[id].state) || orders.orders[id].attempts >= max)
    }

    /** So is an order of a turn that was taken, unless a later turn for it raised. */
    predicate Driven(turn: Turn, feed: seq<Turn>, max: nat)
      requires turn.Order?
      reads this`steps, orders
    {
      Concluded(turn.id, max) || (|steps| < |feed| && feed[|steps|] == turn)
    }

    /** None when recover raised, which ends the process without the fail-safe. */
    method Run(ready: bool, feed: seq<Turn>, max: nat) returns (exit: Option<ServiceExit>)
      requires orders.Follows() && orders.trace.Last().pc.Idle? && max <= orders.cap
      requires steps == [] && halts == 0
      modifies this, orders`orders, orders`trace, orders`recovered, orders`recoveries, orders.exchange, orders.journal
      ensures orders.Follows() && Extends(old(orders.trace), orders.trace)
      // not ready: nothing at all happens to the orders
      ensures exit == Some(SAFE_HALTED) <==> !ready
      ensures !ready ==> orders.trace == old(orders.trace) && orders.recoveries == old(orders.recoveries) && steps == []
      // the recovery comes first, and ends the process exactly when one of its lookups raised:
      // no step, and no order was sent
      ensures exit == None <==>
                && ready && orders.recoveries == old(orders.recoveries)
                && orders.exchange.Raised() == old(orders.exchange.Raised()) + 1
      ensures ready && exit != None ==> orders.recoveries == old(orders.recoveries) + 1 && orders.trace.Last().recovered
      ensures exit == None ==> steps == [] && orders.orders.Keys == old(orders.orders).Keys
      ensures exit == None ==> orders.trace.Last().posts == old(orders.trace.Last().posts)
      ensures ready && InFlight(old(orders.orders)) && orders.exchange.raises(old(orders.exchange.calls))
          ==> exit == None
      // every turn taken is on the feed, in order, and an order that was driven has its record
      ensures steps <= feed && forall k :: 0 <= k < |steps| - 1 ==> steps[k].Order? || steps[k].NoOrder?
      ensures forall k :: 0 <= k < |steps| && steps[k].Order? ==>
                steps[k].id in orders.orders && Driven(steps[k], feed, max)
      // after a recovery: which exit, exactly
      ensures exit == Some(DEAD_MAN) <==> SwitchedOff()
      ensures exit == Some(OK) <==> ready && exit != None && steps == feed && !SwitchedOff()
      ensures exit == Some(ERROR) <==>
                && ready && exit != None && !SwitchedOff() && |steps| < |feed|
                && (feed[|steps|].Raises?
                    || (feed[|steps|].Order? && orders.exchange.Raised() == old(orders.exchange.Raised()) + 1))
      // the fail-safe fires once on every way out but a clean one and a failed recovery
      ensures halts == if exit == None || exit == Some(OK) then 0 else 1
    {
      hide HonestRun, Reported, Learned, RaisedBy;
      if !ready {
        OnHalt();
        return Some(SAFE_HALTED);
      }
      var outs := orders.Recover();
      if outs.None? {
        return None;
      }
      var how := Drive(feed, max);
      return Some(how);
    }

    /** One order of the loop; false when a call to the exchange raised. */
    method DriveOne(id: Id, max: nat) returns (ok: bool)
      requires orders.Follows() && orders.trace.Last().pc.Idle? && orders.trace.Last().recovered && max <= orders.cap
      modifies orders`orders, orders`trace, orders.exchange, orders.journal
      ensures orders.Follows() && Extends(old(orders.trace), orders.trace) && orders.trace.Last().recovered
      ensures ok ==> orders.trace.Last().pc.Idle? && id in orders.orders && Concluded(id, max)
      ensures orders.exchange.Raised() == old(orders.exchange.Raised()) + if ok then 0 else 1
      ensures forall i :: i != id && old(Concluded(i, max)) ==> Concluded(i, max)
      ensures old(orders.orders).Keys <= orders.orders.Keys
    {
      hide HonestRun, Learned, RaisedBy, Settled, Told;
      ghost var replies := orders.exchange.replies;
      var out := orders.Submit(id, max);
      ToldConcludes(replies, orders.exchange.replies, id, StateOf(out), orders.orders[id].attempts >= max);
      ok := out.Some?;
    }

    /** The guarded loop over the feed. */
    method Drive(feed: seq<Turn>, max: nat) returns (exit: ServiceExit)
      requires orders.Follows() && orders.trace.Last().pc.Idle? && orders.trace.Last().recovered && max <= orders.cap
      requires steps == [] && halts == 0
      modifies this, orders`orders, orders`trace, orders.exchange, orders.journal
      ensures orders.Follows() && Extends(old(orders.trace), orders.trace) && orders.trace.Last().recovered
      ensures steps <= feed && forall k :: 0 <= k < |steps| - 1 ==> steps[k].Order? || steps[k].NoOrder?
      ensures forall k :: 0 <= k < |steps| && steps[k].Order? ==>
                steps[k].id in orders.orders && Driven(steps[k], feed, max)
      ensures exit != SAFE_HALTED && (exit == DEAD_MAN <==> SwitchedOff())
      ensures exit == OK <==> steps == feed && !SwitchedOff()
      ensures exit == ERROR <==>
                && !SwitchedOff() && |steps| < |feed|
                && (feed[|steps|].Raises?
                    || (feed[|steps|].Order? && orders.exchange.Raised() == old(orders.exchange.Raised()) + 1))
      ensures orders.exchange.Raised() == old(orders.exchange.Raised()) || exit == ERROR
      ensures halts == if exit == OK then 0 else 1
    {
      hide HonestRun, Learned, RaisedBy, Terminal, Settled, Concluded;
      for k := 0 to |feed|
        invariant orders.Follows() && Extends(old(orders.trace), orders.trace)
        invariant orders.trace.Last().pc.Idle? && orders.trace.Last().recovered
        invariant orders.exchange.Raised() == old(orders.exchange.Raised())
        invariant steps == feed[..k] && halts == 0
        invariant forall j :: 0 <= j < k ==> feed[j].Order? || feed[j].NoOrder?
        invariant forall j :: 0 <= j < k && feed[j].Order? ==>
                    feed[j].id in orders.orders && Concluded(feed[j].id, max)
      {
        assert feed[..k + 1] == feed[..k] + [feed[k]];
        match feed[k] {
          case Raises =>
            OnHalt();
            return ERROR;
          case Order(id) =>
            var ok := DriveOne(id, max);
            if !ok {
              OnHalt();
              return ERROR;
            }
            steps := steps + [feed[k]];
          case Dead =>
            steps := steps + [feed[k]];
            OnHalt();
            return DEAD_MAN;
          case NoOrder =>
            steps := steps + [feed[k]];
        }
      }
      assert feed[..|feed|] == feed;
      return OK;
    }
  }

  /** A restart with an order in flight and an exchange that cannot be reached: the process ends
      and the fail-safe has not fired. */
  method FailedRecoveryIsSilent(feed: seq<Turn>) returns (service: Service, exit: Option<ServiceExit>)
    ensures exit == None && service.halts == 0 && service.steps == []
    ensures ID_X in service.orders.orders
  {
    ghost var all := {Lookups, Deduplication, Rejections, Quiet, Arrivals, Recovery};
    ghost var before := Submitted(all, false);
    AllAreNamed(all);
    hide Trace.From, Trace.Obeys, RaisedBy;
    var exchange := new Exchange(_ => true, _ => Fill(1.0, 1.0, 0.0, 0));
    var journal := new Journal();
    journal.AppendEvent(Event(ID_X, NEW_RECORD));
    journal.Checkpoint(map[ID_X := NEW_RECORD]);
    var orders := new OrderManager(3, exchange, journal, before);
    assert ID_X in orders.orders && !Terminal(orders.orders[ID_X].state);
    service := new Service(orders);
    exit := service.Run(true, feed, 3);
  }
}
