/**
 * The visitor queue document: tickets in issuance order, the last issued
 * number, the day stamp and the three counter ("loket") slots; reading it back
 * from storage (`getInitialState`: daily reset, old-format migration, fallback
 * to a fresh document) and the read-only queries over it.
 */
module QueueDocument {
  import opened Wrappers
  import opened Decimal

  /** A point in time (a JavaScript `Date`); only ever copied, never inspected. */
  type Time = int

  datatype Status = Waiting | Called | Served | Skipped

  datatype Ticket = Ticket(
    id: string,
    number: int,
    formattedNumber: string,
    createdAt: Time,
    status: Status,
    loket: Option<int>,
    calledAt: Option<Time>)

  /** The counters that have a slot: keys 1, 2 and 3. */
  predicate ValidLoket(k: int) {
    1 <= k <= 3
  }

  /** `calledByLoket`: the ticket last called to each of the three counters. */
  datatype CalledByLoket = CalledByLoket(one: Option<Ticket>, two: Option<Ticket>, three: Option<Ticket>) {

    function Get(k: int): Option<Ticket>
      requires ValidLoket(k)
    {
      if k == 1 then one else if k == 2 then two else three
    }

    function Set(k: int, t: Option<Ticket>): (r: CalledByLoket)
      requires ValidLoket(k)
      ensures r.Get(k) == t
      ensures forall j :: ValidLoket(j) && j != k ==> r.Get(j) == Get(j)
    {
      if k == 1 then this.(one := t) else if k == 2 then this.(two := t) else this.(three := t)
    }
  }

  const NoneCalled := CalledByLoket(None, None, None)

  datatype QueueState = QueueState(
    tickets: seq<Ticket>,
    currentNumber: int,
    lastReset: string,
    calledByLoket: CalledByLoket)

  /** The document of a new day: no tickets, nothing issued, no counter busy. */
  function Fresh(today: string): (r: QueueState)
    ensures r.lastReset == today && r.tickets == [] && r.currentNumber == 0
    ensures forall k :: ValidLoket(k) ==> r.calledByLoket.Get(k).None?
    ensures Consistent(r)
  {
    QueueState([], 0, today, NoneCalled)
  }

  /** `formatQueueNumber`: `String(n).padStart(3, '0')`. */
  function FormatQueueNumber(n: int): (r: string)
    ensures |r| >= 3 && |r| >= |IntToString(n)|
    ensures r[|r| - |IntToString(n)|..] == IntToString(n)
    ensures forall i :: 0 <= i < |r| - |IntToString(n)| ==> r[i] == '0'
  {
    PadStart(IntToString(n), 3, '0')
  }

  /** The id `takeNumber` gives ticket `n` issued on `day`: `day + "-" + n`. */
  function TicketId(day: string, n: int): (r: string)
    ensures |r| == |day| + 1 + |IntToString(n)|
    ensures r[..|day|] == day && r[|day|] == '-' && r[|day| + 1..] == IntToString(n)
  {
    day + "-" + IntToString(n)
  }

  /**
   * A queue number reads back as itself: the formatted string holds digits only,
   * is exactly three characters below 1000 and the plain decimal from 100 on
   * (so it is never truncated), and its value is `n`.
   */
  lemma FormatQueueNumberRoundTrip(n: nat)
    ensures AllDigits(FormatQueueNumber(n))
    ensures Value(FormatQueueNumber(n)) == n
    ensures n < 1000 ==> |FormatQueueNumber(n)| == 3
    ensures n >= 100 ==> FormatQueueNumber(n) == NatToString(n)
  {
    var s := NatToString(n);
    ValueOfNatToString(n);
    NatToStringLength(n);
    if n < 100 {
      assert FormatQueueNumber(n) == Repeat('0', 3 - |s|) + s;
      ValueIgnoresLeadingZeros(3 - |s|, s);
    }
  }

  /** Ids of the same day differ exactly when their numbers do. */
  lemma TicketIdInjective(day: string, a: int, b: int)
    requires TicketId(day, a) == TicketId(day, b)
    ensures a == b
  {
    var k := |day| + 1;
    assert IntToString(a) == TicketId(day, a)[k..];
    assert IntToString(b) == TicketId(day, b)[k..];
    IntToStringInjective(a, b);
  }

  // ---------------------------------------------------------------------------
  // Invariants of a document built by the store's own commands
  // ---------------------------------------------------------------------------

  /**
   * Dense numbering: the tickets are 1..N in array order, `currentNumber` is N,
   * and each ticket carries the id and formatted number of its position.
   */
  ghost predicate WellNumbered(s: QueueState) {
    && s.currentNumber == |s.tickets|
    && forall i :: 0 <= i < |s.tickets| ==> LabelledAt(s, i)
  }

  ghost predicate LabelledAt(s: QueueState, i: int) {
    0 <= i < |s.tickets| && Labelled(s.tickets[i], s.lastReset, i + 1)
  }

  /** Ticket `t` carries number `n` of `day`: its number, id and formatted number. */
  ghost predicate Labelled(t: Ticket, day: string, n: int) {
    t.number == n && t.id == TicketId(day, n) && t.formattedNumber == FormatQueueNumber(n)
  }

  /** Some entry of `ts` has this id, is `called`, and was called to counter `k`. */
  ghost predicate Held(ts: seq<Ticket>, id: string, k: int) {
    exists i :: 0 <= i < |ts| && ts[i].id == id && ts[i].status == Called && ts[i].loket == Some(k)
  }

  /** Slot `k` and the ticket list agree about the ticket the slot holds. */
  ghost predicate SlotAgrees(s: QueueState, k: int)
    requires ValidLoket(k)
  {
    s.calledByLoket.Get(k).Some? ==> Held(s.tickets, s.calledByLoket.Get(k).value.id, k)
  }

  ghost predicate SlotsAgree(s: QueueState) {
    SlotAgrees(s, 1) && SlotAgrees(s, 2) && SlotAgrees(s, 3)
  }

  ghost predicate Consistent(s: QueueState) {
    WellNumbered(s) && SlotsAgree(s)
  }

  /** Under dense numbering no two tickets share an id. */
  lemma IdsUnique(s: QueueState)
    requires WellNumbered(s)
    ensures forall i, j :: 0 <= i < |s.tickets| && 0 <= j < |s.tickets| && i != j ==>
              s.tickets[i].id != s.tickets[j].id
  {
    forall i, j | 0 <= i < |s.tickets| && 0 <= j < |s.tickets| && s.tickets[i].id == s.tickets[j].id
      ensures i == j
    {
      IdAt(s, i);
      IdAt(s, j);
      TicketIdInjective(s.lastReset, i + 1, j + 1);
    }
  }

  lemma IdAt(s: QueueState, i: int)
    requires WellNumbered(s) && 0 <= i < |s.tickets|
    ensures s.tickets[i].id == TicketId(s.lastReset, i + 1)
  {
    assert LabelledAt(s, i);
  }

  // ---------------------------------------------------------------------------
  // Searches and queries
  // ---------------------------------------------------------------------------

  /** `tickets.filter(t => t.status === 'waiting')[0]`, as an index. */
  function FirstWaiting(ts: seq<Ticket>): (r: Option<nat>)
    ensures r.None? <==> forall i :: 0 <= i < |ts| ==> ts[i].status != Waiting
    ensures r.Some? ==> r.value < |ts| && ts[r.value].status == Waiting
    ensures r.Some? ==> forall j :: 0 <= j < r.value ==> ts[j].status != Waiting
  {
    if ts == [] then None
    else if ts[0].status == Waiting then Some(0)
    else match FirstWaiting(ts[1..])
      case None => None
      case Some(i) => Some(i + 1)
  }

  /** `tickets.find(t => t.id === id)`, as an index: the first entry with that id. */
  function IndexOfId(ts: seq<Ticket>, id: string): (r: Option<nat>)
    ensures r.None? <==> forall i :: 0 <= i < |ts| ==> ts[i].id != id
    ensures r.Some? ==> r.value < |ts| && ts[r.value].id == id
    ensures r.Some? ==> forall j :: 0 <= j < r.value ==> ts[j].id != id
  {
    if ts == [] then None
    else if ts[0].id == id then Some(0)
    else match IndexOfId(ts[1..], id)
      case None => None
      case Some(i) => Some(i + 1)
  }

  /** `tickets.filter(t => t.status === 'waiting').length`. */
  function WaitingCount(ts: seq<Ticket>): (n: nat)
    ensures n <= |ts|
    ensures n == 0 <==> forall i :: 0 <= i < |ts| ==> ts[i].status != Waiting
  {
    if ts == [] then 0
    else WaitingCount(ts[..|ts| - 1]) + (if ts[|ts| - 1].status == Waiting then 1 else 0)
  }

  /** Replacing one waiting ticket by one that is not waiting lowers the count by one. */
  lemma {:induction false} WaitingCountAfterUpdate(ts: seq<Ticket>, i: nat, t: Ticket)
    requires i < |ts| && ts[i].status == Waiting && t.status != Waiting
    ensures WaitingCount(ts[i := t]) == WaitingCount(ts) - 1
    decreases |ts|
  {
    var n := |ts|;
    var us := ts[i := t];
    if i == n - 1 {
      assert us[..n - 1] == ts[..n - 1];
    } else {
      assert us[..n - 1] == ts[..n - 1][i := t];
      WaitingCountAfterUpdate(ts[..n - 1], i, t);
    }
  }

  /** `getCalledByLoket`: the slot's ticket, and `null` for any counter outside 1..3. */
  function GetCalledByLoket(s: QueueState, loket: int): (r: Option<Ticket>)
    ensures !ValidLoket(loket) ==> r == None
    ensures ValidLoket(loket) ==> r == s.calledByLoket.Get(loket)
  {
    if !ValidLoket(loket) then None else s.calledByLoket.Get(loket)
  }

  /**
   * In a consistent document a ticket reported for a counter is a `called`
   * entry of the list, called to that very counter.
   */
  lemma CalledByLoketIsHeld(s: QueueState, loket: int)
    requires SlotsAgree(s)
    requires GetCalledByLoket(s, loket).Some?
    ensures ValidLoket(loket)
    ensures Held(s.tickets, GetCalledByLoket(s, loket).value.id, loket)
  {
    assert SlotAgrees(s, loket);
  }

  // ---------------------------------------------------------------------------
  // Storage: what `getInitialState` finds, and how it reads it
  // ---------------------------------------------------------------------------

  /**
   * A parsed document. The old schema has `currentCalled` and no
   * `calledByLoket`; the current one has `calledByLoket`.
   */
  datatype StoredDocument = StoredDocument(
    tickets: seq<Ticket>,
    currentNumber: int,
    lastReset: string,
    currentCalled: Option<Ticket>,
    calledByLoket: Option<CalledByLoket>)

  /**
   * What the storage key holds: nothing (or an empty string), text that
   * fails to parse or to read as a document, or a parsed document.
   */
  datatype Stored = Absent | Malformed | Parsed(doc: StoredDocument)

  /** What `saveState` writes: the document in the current schema. */
  function Save(s: QueueState): (r: Stored)
    ensures r.Parsed? && r.doc.currentCalled.None? && r.doc.calledByLoket.Some?
    ensures StampedToday(r, s.lastReset) && Load(r, s.lastReset) == s
  {
    Parsed(StoredDocument(s.tickets, s.currentNumber, s.lastReset, None, Some(s.calledByLoket)))
  }

  /** `ticket.loket || 1`: a missing or zero counter counts as counter 1. */
  function LoketOrOne(t: Ticket): (r: int)
    ensures r != 0
    ensures t.loket.Some? && t.loket.value != 0 ==> r == t.loket.value
    ensures t.loket.None? || t.loket.value == 0 ==> r == 1
  {
    if t.loket.None? || t.loket.value == 0 then 1 else t.loket.value
  }

  /** The single `currentCalled` ticket moved into slot `loket || 1`, if that is 1..3. */
  function MigratedSlots(current: Ticket): (r: CalledByLoket)
    ensures forall k :: ValidLoket(k) && r.Get(k).Some? ==> r.Get(k) == Some(current) && k == LoketOrOne(current)
    ensures ValidLoket(LoketOrOne(current)) ==> r.Get(LoketOrOne(current)) == Some(current)
  {
    var k := LoketOrOne(current);
    CalledByLoket(
      if k == 1 then Some(current) else None,
      if k == 2 then Some(current) else None,
      if k == 3 then Some(current) else None)
  }

  /** `getInitialState`, with today's date stamp passed in. */
  function Load(stored: Stored, today: string): (r: QueueState)
    ensures r.lastReset == today
  {
    match stored
    case Absent => Fresh(today)
    case Malformed => Fresh(today)
    case Parsed(d) =>
      if d.lastReset != today then Fresh(today)
      else if d.currentCalled.Some? && d.calledByLoket.None? then
        QueueState(d.tickets, d.currentNumber, d.lastReset, MigratedSlots(d.currentCalled.value))
      else
        QueueState(d.tickets, d.currentNumber, d.lastReset, d.calledByLoket.GetOr(NoneCalled))
  }

  /** The stored document is kept exactly when it is a parsed document stamped today. */
  predicate StampedToday(stored: Stored, today: string) {
    stored.Parsed? && stored.doc.lastReset == today
  }

  /**
   * A missing key, unreadable data or a document of another day all load as
   * the fresh document of today; a document of today keeps its tickets and
   * counter.
   */
  lemma LoadFallsBackToFresh(stored: Stored, today: string)
    ensures !StampedToday(stored, today) ==> Load(stored, today) == Fresh(today)
    ensures StampedToday(stored, today) ==>
              Load(stored, today).tickets == stored.doc.tickets &&
              Load(stored, today).currentNumber == stored.doc.currentNumber
  {
  }

  /**
   * An old-format document of today (a `currentCalled` ticket, no
   * `calledByLoket`) loads with that ticket in slot `loket || 1` when that is
   * 1..3 and every other slot empty; its tickets and counter are kept.
   */
  lemma LoadMigratesCurrentCalled(d: StoredDocument, today: string)
    requires d.lastReset == today && d.currentCalled.Some? && d.calledByLoket.None?
    ensures var r := Load(Parsed(d), today);
            var t := d.currentCalled.value;
            var k := if t.loket.None? || t.loket.value == 0 then 1 else t.loket.value;
            && r.tickets == d.tickets
            && r.currentNumber == d.currentNumber
            && (ValidLoket(k) ==> GetCalledByLoket(r, k) == Some(t))
            && forall j :: j != k ==> GetCalledByLoket(r, j) == None
  {
  }

  /** A current-format document of today keeps the slots it was saved with. */
  lemma LoadKeepsCalledByLoket(d: StoredDocument, today: string)
    requires d.lastReset == today && d.calledByLoket.Some?
    ensures forall k :: GetCalledByLoket(Load(Parsed(d), today), k) ==
                        (if ValidLoket(k) then d.calledByLoket.value.Get(k) else None)
  {
  }

  /**
   * `getInitialState` on a document this store saved: kept on the day it is
   * stamped with, replaced by the fresh document on any other day.
   */
  function Reload(s: QueueState, today: string): (r: QueueState)
    ensures r.lastReset == today
    ensures s.lastReset == today ==> r == s
    ensures s.lastReset != today ==>
              r.tickets == [] && r.currentNumber == 0 && r.calledByLoket == NoneCalled
  {
    if s.lastReset == today then s else Fresh(today)
  }

  /** Saving and loading again is `Reload`: on the same day, nothing is lost. */
  lemma SaveLoadRoundTrip(s: QueueState, today: string)
    ensures Load(Save(s), today) == Reload(s, today)
    ensures Load(Save(s), s.lastReset) == s
  {
  }

  /**
   * Keeping the loaded document instead of the raw storage changes nothing a
   * later read sees, unless the clock goes back to the day the raw storage
   * was stamped with.
   */
  lemma ReloadAgrees(stored: Stored, t1: string, t2: string)
    requires t2 == t1 || !StampedToday(stored, t2)
    ensures Reload(Load(stored, t1), t2) == Load(stored, t2)
  {
  }
}
