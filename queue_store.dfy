/**
 * The store as the program runs it: one document in storage, and commands
 * that each load it (with the daily reset), change the loaded copy in place
 * and save it back. The fields of `Store` are the document last saved.
 */
module QueueStore {
  import opened Wrappers
  import opened QueueDocument
  import QueueCommands

  /** `tickets.filter(t => t.status === 'waiting')[0]`: the first waiting entry, by a scan. */
  method FindFirstWaiting(ts: seq<Ticket>) returns (r: Option<nat>)
    ensures r == FirstWaiting(ts)
  {
    var i := 0;
    while i < |ts|
      invariant 0 <= i <= |ts|
      invariant forall j :: 0 <= j < i ==> ts[j].status != Waiting
    {
      if ts[i].status == Waiting {
        return Some(i);
      }
      i := i + 1;
    }
    return None;
  }

  /** `tickets.find(t => t.id === id)`: the first entry with that id, by a scan. */
  method FindById(ts: seq<Ticket>, id: string) returns (r: Option<nat>)
    ensures r == IndexOfId(ts, id)
  {
    var i := 0;
    while i < |ts|
      invariant 0 <= i <= |ts|
      invariant forall j :: 0 <= j < i ==> ts[j].id != id
    {
      if ts[i].id == id {
        return Some(i);
      }
      i := i + 1;
    }
    return None;
  }

  /** `tickets.filter(t => t.status === 'waiting').length`, by a counting scan. */
  method CountWaiting(ts: seq<Ticket>) returns (n: nat)
    ensures n == WaitingCount(ts)
  {
    n := 0;
    var i := 0;
    while i < |ts|
      invariant 0 <= i <= |ts|
      invariant n == WaitingCount(ts[..i])
    {
      assert ts[..i + 1][..i] == ts[..i];
      if ts[i].status == Waiting {
        n := n + 1;
      }
      i := i + 1;
    }
    assert ts[..i] == ts;
  }

  class Store {
    var tickets: seq<Ticket>
    var currentNumber: int
    var lastReset: string
    var calledByLoket: CalledByLoket

    /** The document as `saveState` would write it. */
    function Snapshot(): QueueState
      reads this
    {
      QueueState(tickets, currentNumber, lastReset, calledByLoket)
    }

    /** The document as the first `getInitialState` finds it in storage. */
    constructor (stored: Stored, today: string)
      ensures Snapshot() == Load(stored, today)
    {
      var state := Load(stored, today);
      tickets := state.tickets;
      currentNumber := state.currentNumber;
      lastReset := state.lastReset;
      calledByLoket := state.calledByLoket;
    }

    /** `saveState`: the stored document becomes `state`. */
    method Save(state: QueueState)
      modifies this
      ensures Snapshot() == state
    {
      tickets := state.tickets;
      currentNumber := state.currentNumber;
      lastReset := state.lastReset;
      calledByLoket := state.calledByLoket;
    }

    /** `takeNumber`: issue the next ticket of the day. */
    method TakeNumber(today: string, now: Time) returns (ticket: Ticket)
      modifies this
      ensures Snapshot() == QueueCommands.Apply(old(Snapshot()), QueueCommands.TakeNumberCmd(today, now))
      ensures ticket == QueueCommands.TakeNumber(Reload(old(Snapshot()), today), today, now).result
    {
      var state := Reload(Snapshot(), today);
      ghost var step := QueueCommands.TakeNumber(state, today, now);
      var newNumber := state.currentNumber + 1;
      ticket := Ticket(TicketId(today, newNumber), newNumber, FormatQueueNumber(newNumber), now, Waiting, None, None);
      assert ticket == QueueCommands.NewTicket(today, newNumber, now) == step.result;
      state := state.(tickets := state.tickets + [ticket]);
      state := state.(currentNumber := newNumber);
      assert state == step.next;
      Save(state);
    }

    /** `callNext`: call the first waiting ticket to `loket`; `None` saves nothing. */
    method CallNext(loket: int, today: string, now: Time) returns (called: Option<Ticket>)
      modifies this
      ensures Snapshot() == QueueCommands.Apply(old(Snapshot()), QueueCommands.CallNextCmd(loket, today, now))
      ensures called == match QueueCommands.CallNext(Reload(old(Snapshot()), today), loket, now)
                        case None => None
                        case Some(step) => Some(step.result)
    {
      var state := Reload(Snapshot(), today);
      var i := FindFirstWaiting(state.tickets);
      if i.None? {
        return None;
      }
      var next := state.tickets[i.value];
      next := next.(status := Called);
      next := next.(loket := Some(loket));
      next := next.(calledAt := Some(now));
      state := state.(tickets := state.tickets[i.value := next]);
      if ValidLoket(loket) {
        state := state.(calledByLoket := state.calledByLoket.Set(loket, Some(next)));
      }
      Save(state);
      return Some(next);
    }

    /** `recallCurrent`: refresh the call time of the ticket in `loket`'s slot. */
    method RecallCurrent(loket: int, today: string, now: Time) returns (recalled: Option<Ticket>)
      modifies this
      ensures Snapshot() == QueueCommands.Apply(old(Snapshot()), QueueCommands.RecallCurrentCmd(loket, today, now))
      ensures recalled == match QueueCommands.RecallCurrent(Reload(old(Snapshot()), today), loket, now)
                          case None => None
                          case Some(step) => Some(step.result)
    {
      var state := Reload(Snapshot(), today);
      if !ValidLoket(loket) {
        return None;
      }
      var current := state.calledByLoket.Get(loket);
      if current.None? {
        return None;
      }
      var ticket := current.value.(calledAt := Some(now));
      state := state.(calledByLoket := state.calledByLoket.Set(loket, Some(ticket)));
      Save(state);
      return Some(ticket);
    }

    /** Shared body of `skipCurrent` and `markServed`. */
    method Finish(loket: int, today: string, final: Status) returns (done: bool)
      modifies this
      ensures var r := QueueCommands.Finish(Reload(old(Snapshot()), today), loket, final);
              && done == r.Some?
              && Snapshot() == if r.Some? then r.value else old(Snapshot())
    {
      var state := Reload(Snapshot(), today);
      if !ValidLoket(loket) {
        return false;
      }
      var current := state.calledByLoket.Get(loket);
      if current.None? {
        return false;
      }
      var j := FindById(state.tickets, current.value.id);
      if j.Some? {
        state := state.(tickets := state.tickets[j.value := state.tickets[j.value].(status := final)]);
      }
      state := state.(calledByLoket := state.calledByLoket.Set(loket, None));
      Save(state);
      return true;
    }

    /** `skipCurrent`: the slot's ticket is skipped and the slot cleared. */
    method SkipCurrent(loket: int, today: string) returns (done: bool)
      modifies this
      ensures Snapshot() == QueueCommands.Apply(old(Snapshot()), QueueCommands.SkipCurrentCmd(loket, today))
      ensures done == QueueCommands.Finish(Reload(old(Snapshot()), today), loket, Skipped).Some?
    {
      done := Finish(loket, today, Skipped);
    }

    /** `markServed`: the slot's ticket is served and the slot cleared. */
    method MarkServed(loket: int, today: string) returns (done: bool)
      modifies this
      ensures Snapshot() == QueueCommands.Apply(old(Snapshot()), QueueCommands.MarkServedCmd(loket, today))
      ensures done == QueueCommands.Finish(Reload(old(Snapshot()), today), loket, Served).Some?
    {
      done := Finish(loket, today, Served);
    }

    /** `getWaitingCount`: read (with the daily reset) and count; nothing is saved. */
    method GetWaitingCount(today: string) returns (n: nat)
      ensures n == WaitingCount(Reload(Snapshot(), today).tickets)
      ensures n <= |Reload(Snapshot(), today).tickets|
    {
      var state := Reload(Snapshot(), today);
      n := CountWaiting(state.tickets);
    }

    /** `getCalledByLoket`: read (with the daily reset) and look up one slot; nothing is saved. */
    method GetCalledByLoket(loket: int, today: string) returns (t: Option<Ticket>)
      ensures t == QueueDocument.GetCalledByLoket(Reload(Snapshot(), today), loket)
      ensures !ValidLoket(loket) ==> t.None?
    {
      var state := Reload(Snapshot(), today);
      if !ValidLoket(loket) {
        return None;
      }
      return state.calledByLoket.Get(loket);
    }
  }
}
