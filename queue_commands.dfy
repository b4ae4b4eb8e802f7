/**
 * The store's commands as transitions of the loaded document: what each one
 * returns and what it saves. `Apply` adds the load before and the save after
 * (or no save, on the paths that return early), and the lemmas below are the
 * promises that hold across commands: dense numbering and slot agreement.
 */
module QueueCommands {
  import opened Wrappers
  import opened Decimal
  import opened QueueDocument

  /** What a command returns, and the document it then saves. */
  datatype Step<R> = Step(result: R, next: QueueState)

  /** The ticket `takeNumber` builds for number `n`. */
  function NewTicket(today: string, n: int, now: Time): (t: Ticket)
    ensures Labelled(t, today, n)
    ensures t.status == Waiting && t.createdAt == now && t.loket.None? && t.calledAt.None?
  {
    Ticket(TicketId(today, n), n, FormatQueueNumber(n), now, Waiting, None, None)
  }

  /**
   * `takeNumber`: one new `waiting` ticket at the end, numbered one past
   * `currentNumber`, which moves on to it; nothing else changes.
   */
  function TakeNumber(s: QueueState, today: string, now: Time): (r: Step<Ticket>)
    ensures |r.next.tickets| == |s.tickets| + 1 && r.next.tickets[..|s.tickets|] == s.tickets
    ensures r.next.tickets[|s.tickets|] == r.result && r.result.status == Waiting
    ensures r.result.number == s.currentNumber + 1 == r.next.currentNumber
    ensures r.result.id == TicketId(today, r.result.number)
    ensures r.result.formattedNumber == FormatQueueNumber(r.result.number)
    ensures r.result.createdAt == now && r.result.loket.None? && r.result.calledAt.None?
    ensures r.result.number >= 0 ==>
              AllDigits(r.result.formattedNumber) && Value(r.result.formattedNumber) == r.result.number &&
              |r.result.formattedNumber| >= 3 &&
              (r.result.number < 1000 ==> |r.result.formattedNumber| == 3)
    ensures r.next.lastReset == s.lastReset && r.next.calledByLoket == s.calledByLoket
    ensures WaitingCount(r.next.tickets) == WaitingCount(s.tickets) + 1
  {
    var n := s.currentNumber + 1;
    var t := NewTicket(today, n, now);
    var ts := s.tickets + [t];
    assert ts[..|ts| - 1] == s.tickets;
    if n >= 0 then
      FormatQueueNumberRoundTrip(n);
      NatToStringLength(n);
      Step(t, s.(tickets := ts, currentNumber := n))
    else
      Step(t, s.(tickets := ts, currentNumber := n))
  }

  /**
   * `callNext`: nothing when no ticket waits; otherwise the first waiting
   * ticket in array order becomes `called` at `loket` and `now`, and is put in
   * that counter's slot when the counter is 1..3.
   */
  function CallNext(s: QueueState, loket: int, now: Time): (r: Option<Step<Ticket>>)
    ensures r.None? <==> WaitingCount(s.tickets) == 0
    ensures r.Some? ==>
              var i := FirstWaiting(s.tickets).value;
              && FirstWaiting(s.tickets).Some?
              && r.value.next.tickets == s.tickets[i := r.value.result]
              && r.value.result == s.tickets[i].(status := Called, loket := Some(loket), calledAt := Some(now))
              && WaitingCount(r.value.next.tickets) == WaitingCount(s.tickets) - 1
    ensures r.Some? ==>
              && r.value.next.currentNumber == s.currentNumber
              && r.value.next.lastReset == s.lastReset
              && (ValidLoket(loket) ==> r.value.next.calledByLoket == s.calledByLoket.Set(loket, Some(r.value.result)))
              && (!ValidLoket(loket) ==> r.value.next.calledByLoket == s.calledByLoket)
  {
    match FirstWaiting(s.tickets)
    case None => None
    case Some(i) =>
      var t := s.tickets[i].(status := Called, loket := Some(loket), calledAt := Some(now));
      WaitingCountAfterUpdate(s.tickets, i, t);
      var slots := if ValidLoket(loket) then s.calledByLoket.Set(loket, Some(t)) else s.calledByLoket;
      Some(Step(t, s.(tickets := s.tickets[i := t], calledByLoket := slots)))
  }

  /**
   * `recallCurrent`: nothing for a counter outside 1..3 or an empty slot;
   * otherwise the slot's own copy gets `calledAt = now` and is returned. The
   * ticket list is not touched.
   */
  function RecallCurrent(s: QueueState, loket: int, now: Time): (r: Option<Step<Ticket>>)
    ensures r.None? <==> GetCalledByLoket(s, loket).None?
    ensures r.Some? ==>
              var held := GetCalledByLoket(s, loket).value;
              && r.value.result == held.(calledAt := Some(now))
              && r.value.next.tickets == s.tickets
              && r.value.next.currentNumber == s.currentNumber
              && r.value.next.lastReset == s.lastReset
              && r.value.next.calledByLoket == s.calledByLoket.Set(loket, Some(r.value.result))
  {
    if !ValidLoket(loket) then None
    else match s.calledByLoket.Get(loket)
      case None => None
      case Some(held) =>
        var t := held.(calledAt := Some(now));
        Some(Step(t, s.(calledByLoket := s.calledByLoket.Set(loket, Some(t)))))
  }

  /**
   * `skipCurrent` (`final == Skipped`) and `markServed` (`final == Served`):
   * nothing for a counter outside 1..3 or an empty slot; otherwise the first
   * ticket with the slot's id gets status `final` and the slot is cleared.
   */
  function Finish(s: QueueState, loket: int, final: Status): (r: Option<QueueState>)
    ensures r.None? <==> GetCalledByLoket(s, loket).None?
    ensures r.Some? ==>
              var held := GetCalledByLoket(s, loket).value;
              && |r.value.tickets| == |s.tickets|
              && (forall j :: 0 <= j < |s.tickets| && Some(j) != IndexOfId(s.tickets, held.id) ==>
                    r.value.tickets[j] == s.tickets[j])
              && (IndexOfId(s.tickets, held.id).Some? ==>
                    var j := IndexOfId(s.tickets, held.id).value;
                    r.value.tickets[j] == s.tickets[j].(status := final))
              && r.value.currentNumber == s.currentNumber
              && r.value.lastReset == s.lastReset
              && r.value.calledByLoket == s.calledByLoket.Set(loket, None)
  {
    if !ValidLoket(loket) then None
    else match s.calledByLoket.Get(loket)
      case None => None
      case Some(held) =>
        var ts := match IndexOfId(s.tickets, held.id)
          case None => s.tickets
          case Some(j) => s.tickets[j := s.tickets[j].(status := final)];
        Some(s.(tickets := ts, calledByLoket := s.calledByLoket.Set(loket, None)))
  }

  // ---------------------------------------------------------------------------
  // Whole commands: load, act, save (or not)
  // ---------------------------------------------------------------------------

  datatype Command =
    | TakeNumberCmd(today: string, now: Time)
    | CallNextCmd(loket: int, today: string, now: Time)
    | RecallCurrentCmd(loket: int, today: string, now: Time)
    | SkipCurrentCmd(loket: int, today: string)
    | MarkServedCmd(loket: int, today: string)

  /**
   * The document in storage after a command: each command reads it with
   * `getInitialState` and saves only when it does something; the early
   * returns save nothing, so the stored document stays as it was.
   */
  function Apply(s: QueueState, c: Command): (r: QueueState)
    ensures r == s || r.lastReset == c.today
  {
    var loaded := Reload(s, c.today);
    match c
    case TakeNumberCmd(today, now) => TakeNumber(loaded, today, now).next
    case CallNextCmd(loket, _, now) =>
      (match CallNext(loaded, loket, now) case None => s case Some(st) => st.next)
    case RecallCurrentCmd(loket, _, now) =>
      (match RecallCurrent(loaded, loket, now) case None => s case Some(st) => st.next)
    case SkipCurrentCmd(loket, _) =>
      (match Finish(loaded, loket, Skipped) case None => s case Some(next) => next)
    case MarkServedCmd(loket, _) =>
      (match Finish(loaded, loket, Served) case None => s case Some(next) => next)
  }

  function Run(s: QueueState, cs: seq<Command>): QueueState
    decreases |cs|
  {
    if cs == [] then s else Run(Apply(s, cs[0]), cs[1..])
  }

  // ---------------------------------------------------------------------------
  // Invariants
  // ---------------------------------------------------------------------------

  /** A witness for `Held` survives replacing an entry that is not that witness. */
  lemma HeldSurvivesUpdate(ts: seq<Ticket>, i: nat, t: Ticket, id: string, k: int)
    requires i < |ts| && Held(ts, id, k)
    requires !(ts[i].id == id && ts[i].status == Called && ts[i].loket == Some(k)) ||
             (t.id == id && t.status == Called && t.loket == Some(k))
    ensures Held(ts[i := t], id, k)
  {
    var m :| 0 <= m < |ts| && ts[m].id == id && ts[m].status == Called && ts[m].loket == Some(k);
    assert ts[i := t][if m == i then i else m].id == id;
  }

  /** Changing only status, counter and call time of entries keeps the numbering. */
  lemma WellNumberedKeepsLabels(s: QueueState, s': QueueState)
    requires WellNumbered(s) && |s'.tickets| == |s.tickets|
    requires s'.currentNumber == s.currentNumber && s'.lastReset == s.lastReset
    requires forall i :: 0 <= i < |s.tickets| ==>
               s'.tickets[i].id == s.tickets[i].id && s'.tickets[i].number == s.tickets[i].number &&
               s'.tickets[i].formattedNumber == s.tickets[i].formattedNumber
    ensures WellNumbered(s')
  {
    forall i | 0 <= i < |s'.tickets| ensures LabelledAt(s', i) {
      assert LabelledAt(s, i);
    }
  }

  lemma ReloadKeepsConsistent(s: QueueState, today: string)
    requires Consistent(s)
    ensures Consistent(Reload(s, today))
  {
  }

  /** Appending the ticket labelled with the next number keeps a document consistent. */
  lemma AppendKeepsConsistent(s: QueueState, t: Ticket)
    requires Consistent(s) && Labelled(t, s.lastReset, |s.tickets| + 1)
    ensures Consistent(s.(tickets := s.tickets + [t], currentNumber := s.currentNumber + 1))
  {
    AppendKeepsNumbering(s, t);
    AppendKeepsSlots(s, t);
  }

  lemma AppendKeepsNumbering(s: QueueState, t: Ticket)
    requires WellNumbered(s) && Labelled(t, s.lastReset, |s.tickets| + 1)
    ensures WellNumbered(s.(tickets := s.tickets + [t], currentNumber := s.currentNumber + 1))
  {
    var next := s.(tickets := s.tickets + [t], currentNumber := s.currentNumber + 1);
    forall i | 0 <= i < |next.tickets| ensures LabelledAt(next, i) {
      if i < |s.tickets| {
        assert LabelledAt(s, i);
        assert next.tickets[i] == s.tickets[i];
      } else {
        assert next.tickets[i] == t;
      }
    }
  }

  lemma AppendKeepsSlots(s: QueueState, t: Ticket)
    requires SlotsAgree(s)
    ensures SlotsAgree(s.(tickets := s.tickets + [t], currentNumber := s.currentNumber + 1))
  {
    var next := s.(tickets := s.tickets + [t], currentNumber := s.currentNumber + 1);
    forall k | ValidLoket(k) ensures SlotAgrees(next, k) {
      assert SlotAgrees(s, k);
      if s.calledByLoket.Get(k).Some? {
        var m :| 0 <= m < |s.tickets| && s.tickets[m].id == s.calledByLoket.Get(k).value.id &&
                 s.tickets[m].status == Called && s.tickets[m].loket == Some(k);
        assert next.tickets[m] == s.tickets[m];
      }
    }
  }

  lemma TakeNumberKeepsConsistent(s: QueueState, today: string, now: Time)
    requires Consistent(s) && s.lastReset == today
    ensures Consistent(TakeNumber(s, today, now).next)
  {
    var t := NewTicket(today, s.currentNumber + 1, now);
    assert Labelled(t, s.lastReset, |s.tickets| + 1);
    AppendKeepsConsistent(s, t);
  }

  lemma CallNextKeepsConsistent(s: QueueState, loket: int, now: Time)
    requires Consistent(s) && CallNext(s, loket, now).Some?
    ensures Consistent(CallNext(s, loket, now).value.next)
  {
    var st := CallNext(s, loket, now).value;
    var i := FirstWaiting(s.tickets).value;
    WellNumberedKeepsLabels(s, st.next);
    forall k | ValidLoket(k) ensures SlotAgrees(st.next, k) {
      assert SlotAgrees(s, k);
      if ValidLoket(loket) && k == loket {
        assert st.next.tickets[i] == st.result;
      } else if s.calledByLoket.Get(k).Some? {
        HeldSurvivesUpdate(s.tickets, i, st.result, s.calledByLoket.Get(k).value.id, k);
      }
    }
  }

  lemma RecallCurrentKeepsConsistent(s: QueueState, loket: int, now: Time)
    requires Consistent(s) && RecallCurrent(s, loket, now).Some?
    ensures Consistent(RecallCurrent(s, loket, now).value.next)
  {
    var st := RecallCurrent(s, loket, now).value;
    assert st.next.tickets == s.tickets;
    WellNumberedKeepsLabels(s, st.next);
    forall k | ValidLoket(k) ensures SlotAgrees(st.next, k) {
      assert SlotAgrees(s, k);
    }
  }

  /**
   * In a consistent document the ticket a slot holds is found by its id at the
   * entry that is `called` to that slot's counter.
   */
  lemma HeldTicketIsFound(s: QueueState, k: int)
    requires Consistent(s) && ValidLoket(k) && s.calledByLoket.Get(k).Some?
    ensures var j := IndexOfId(s.tickets, s.calledByLoket.Get(k).value.id);
            j.Some? && s.tickets[j.value].status == Called && s.tickets[j.value].loket == Some(k)
  {
    assert SlotAgrees(s, k);
    var id := s.calledByLoket.Get(k).value.id;
    var m :| 0 <= m < |s.tickets| && s.tickets[m].id == id && s.tickets[m].status == Called &&
             s.tickets[m].loket == Some(k);
    IdsUnique(s);
    assert IndexOfId(s.tickets, id) == Some(m);
  }

  lemma FinishKeepsConsistent(s: QueueState, loket: int, final: Status)
    requires Consistent(s) && Finish(s, loket, final).Some?
    ensures Consistent(Finish(s, loket, final).value)
  {
    var next := Finish(s, loket, final).value;
    HeldTicketIsFound(s, loket);
    var j := IndexOfId(s.tickets, s.calledByLoket.Get(loket).value.id).value;
    assert next.tickets == s.tickets[j := s.tickets[j].(status := final)];
    WellNumberedKeepsLabels(s, next);
    forall k | ValidLoket(k) ensures SlotAgrees(next, k) {
      assert SlotAgrees(s, k);
      if k != loket && s.calledByLoket.Get(k).Some? {
        HeldSurvivesUpdate(s.tickets, j, s.tickets[j].(status := final), s.calledByLoket.Get(k).value.id, k);
      }
    }
  }

  /** Every command keeps a consistent document consistent. */
  lemma ApplyKeepsConsistent(s: QueueState, c: Command)
    requires Consistent(s)
    ensures Consistent(Apply(s, c))
  {
    var loaded := Reload(s, c.today);
    ReloadKeepsConsistent(s, c.today);
    match c
    case TakeNumberCmd(today, now) => TakeNumberKeepsConsistent(loaded, today, now);
    case CallNextCmd(loket, _, now) =>
      if CallNext(loaded, loket, now).Some? { CallNextKeepsConsistent(loaded, loket, now); }
    case RecallCurrentCmd(loket, _, now) =>
      if RecallCurrent(loaded, loket, now).Some? { RecallCurrentKeepsConsistent(loaded, loket, now); }
    case SkipCurrentCmd(loket, _) =>
      if Finish(loaded, loket, Skipped).Some? { FinishKeepsConsistent(loaded, loket, Skipped); }
    case MarkServedCmd(loket, _) =>
      if Finish(loaded, loket, Served).Some? { FinishKeepsConsistent(loaded, loket, Served); }
  }

  /**
   * From a fresh (or reset) document, any sequence of commands leaves tickets
   * numbered 1..N with `currentNumber == N`, and every slot in agreement with
   * the ticket list.
   */
  lemma {:induction false} RunKeepsConsistent(s: QueueState, cs: seq<Command>)
    requires Consistent(s)
    ensures Consistent(Run(s, cs))
    decreases |cs|
  {
    if cs != [] {
      ApplyKeepsConsistent(s, cs[0]);
      RunKeepsConsistent(Apply(s, cs[0]), cs[1..]);
    }
  }

  lemma FreshRunIsConsistent(today: string, cs: seq<Command>)
    ensures Consistent(Run(Fresh(today), cs))
  {
    RunKeepsConsistent(Fresh(today), cs);
  }

  // ---------------------------------------------------------------------------
  // Order and lifecycle
  // ---------------------------------------------------------------------------

  /** FIFO: the ticket called has the lowest number among all waiting tickets. */
  lemma CallNextServesLowestNumber(s: QueueState, loket: int, now: Time)
    requires WellNumbered(s) && CallNext(s, loket, now).Some?
    ensures forall j :: 0 <= j < |s.tickets| && s.tickets[j].status == Waiting ==>
              CallNext(s, loket, now).value.result.number <= s.tickets[j].number
  {
    var i := FirstWaiting(s.tickets).value;
    forall j | 0 <= j < |s.tickets| && s.tickets[j].status == Waiting
      ensures CallNext(s, loket, now).value.result.number <= s.tickets[j].number
    {
      assert LabelledAt(s, i) && LabelledAt(s, j);
    }
  }

  /**
   * Only `takeNumber` adds a ticket or moves `currentNumber`: on the stored day
   * it adds one of each, on a new day it starts over at one ticket numbered 1,
   * and every other command keeps both on any day (after a reset nothing waits
   * and no slot is held, so they return early and save nothing).
   */
  lemma OnlyTakeNumberIssues(s: QueueState, c: Command)
    ensures c.TakeNumberCmd? && c.today == s.lastReset ==>
              |Apply(s, c).tickets| == |s.tickets| + 1 && Apply(s, c).currentNumber == s.currentNumber + 1
    ensures c.TakeNumberCmd? && c.today != s.lastReset ==>
              |Apply(s, c).tickets| == 1 && Apply(s, c).currentNumber == 1
    ensures !c.TakeNumberCmd? ==>
              |Apply(s, c).tickets| == |s.tickets| && Apply(s, c).currentNumber == s.currentNumber
  {
    if c.TakeNumberCmd? {
      assert Apply(s, c) == TakeNumber(Reload(s, c.today), c.today, c.now).next;
    } else if c.today != s.lastReset {
      NewDayLeavesStored(s, c);
    } else {
      SameDayKeepsCounts(s, c);
    }
  }

  /** After a reset nothing waits and no slot is held: the other commands save nothing. */
  lemma NewDayLeavesStored(s: QueueState, c: Command)
    requires !c.TakeNumberCmd? && c.today != s.lastReset
    ensures Apply(s, c) == s
  {
    var loaded := Reload(s, c.today);
    assert loaded.tickets == [] && loaded.calledByLoket == NoneCalled;
    assert WaitingCount(loaded.tickets) == 0;
  }

  /** On the stored day, commands other than `takeNumber` keep the list length and the counter. */
  lemma SameDayKeepsCounts(s: QueueState, c: Command)
    requires !c.TakeNumberCmd? && c.today == s.lastReset
    ensures |Apply(s, c).tickets| == |s.tickets| && Apply(s, c).currentNumber == s.currentNumber
  {
    assert Reload(s, c.today) == s;
  }

  /** The lifecycle steps a status may take: waiting to called, called to served or skipped. */
  predicate Advances(before: Status, after: Status) {
    || before == after
    || (before == Waiting && after == Called)
    || (before == Called && (after == Served || after == Skipped))
  }

  /**
   * In a consistent document of the day, no command sends a ticket back to
   * `waiting` or changes a `served` or `skipped` ticket: statuses only advance.
   */
  lemma StatusesOnlyAdvance(s: QueueState, c: Command)
    requires Consistent(s) && c.today == s.lastReset
    ensures |Apply(s, c).tickets| >= |s.tickets|
    ensures forall i :: 0 <= i < |s.tickets| ==> Advances(s.tickets[i].status, Apply(s, c).tickets[i].status)
  {
    assert Reload(s, c.today) == s;
    match c
    case TakeNumberCmd(today, now) =>
      TakeNumberAdvances(s, today, now);
    case CallNextCmd(loket, _, now) =>
      if CallNext(s, loket, now).Some? { CallNextAdvances(s, loket, now); }
    case RecallCurrentCmd(loket, _, now) =>
    case SkipCurrentCmd(loket, _) =>
      if Finish(s, loket, Skipped).Some? { FinishAdvances(s, loket, Skipped); }
    case MarkServedCmd(loket, _) =>
      if Finish(s, loket, Served).Some? { FinishAdvances(s, loket, Served); }
  }

  /** Issuing a ticket keeps every earlier ticket's status; the new one waits. */
  lemma TakeNumberAdvances(s: QueueState, today: string, now: Time)
    ensures |TakeNumber(s, today, now).next.tickets| >= |s.tickets|
    ensures forall i :: 0 <= i < |s.tickets| ==>
              TakeNumber(s, today, now).next.tickets[i].status == s.tickets[i].status
    ensures forall i :: 0 <= i < |s.tickets| ==>
              Advances(s.tickets[i].status, TakeNumber(s, today, now).next.tickets[i].status)
  {
    var next := TakeNumber(s, today, now).next;
    forall i | 0 <= i < |s.tickets| ensures next.tickets[i].status == s.tickets[i].status {
      assert next.tickets[i] == next.tickets[..|s.tickets|][i];
    }
  }

  /** Calling moves the first waiting ticket to called and keeps every other status. */
  lemma CallNextAdvances(s: QueueState, loket: int, now: Time)
    requires CallNext(s, loket, now).Some?
    ensures |CallNext(s, loket, now).value.next.tickets| == |s.tickets|
    ensures FirstWaiting(s.tickets).Some?
    ensures var i := FirstWaiting(s.tickets).value;
            && s.tickets[i].status == Waiting
            && CallNext(s, loket, now).value.next.tickets[i].status == Called
            && forall j :: 0 <= j < |s.tickets| && j != i ==>
                 CallNext(s, loket, now).value.next.tickets[j].status == s.tickets[j].status
    ensures forall i :: 0 <= i < |s.tickets| ==>
              Advances(s.tickets[i].status, CallNext(s, loket, now).value.next.tickets[i].status)
  {
  }

  /**
   * In a consistent document, finishing finds the slot's ticket, which is
   * called, moves it to `final` and keeps every other status.
   */
  lemma FinishAdvances(s: QueueState, loket: int, final: Status)
    requires Consistent(s) && Finish(s, loket, final).Some?
    ensures |Finish(s, loket, final).value.tickets| == |s.tickets|
    ensures IndexOfId(s.tickets, GetCalledByLoket(s, loket).value.id).Some?
    ensures var j := IndexOfId(s.tickets, GetCalledByLoket(s, loket).value.id).value;
            && s.tickets[j].status == Called
            && Finish(s, loket, final).value.tickets[j].status == final
            && forall i :: 0 <= i < |s.tickets| && i != j ==>
                 Finish(s, loket, final).value.tickets[i].status == s.tickets[i].status
    ensures final == Served || final == Skipped ==>
              forall i :: 0 <= i < |s.tickets| ==>
                Advances(s.tickets[i].status, Finish(s, loket, final).value.tickets[i].status)
  {
    var next := Finish(s, loket, final).value;
    HeldTicketIsFound(s, loket);
    var j := IndexOfId(s.tickets, s.calledByLoket.Get(loket).value.id).value;
    forall i | 0 <= i < |s.tickets| && i != j ensures next.tickets[i].status == s.tickets[i].status {
      assert Some(i) != Some(j);
    }
  }
}
