/** Hall bookings as half-open intervals, the database's exclusion constraint, and the
    availability query. Times are in minutes. */
module Bookings {
  import opened Common

  datatype Slot = Slot(hall: nat, date: int, start: int, end: int) {
    predicate Proper() { start < end }

    predicate Covers(t: int) { start <= t < end }
  }

  datatype Booking = Booking(slot: Slot, active: bool)

  /** The overlap test of every query, and of the constraint on tstzrange(start, end, '[)'). */
  predicate Overlaps(a: Slot, b: Slot) { a.hall == b.hall && a.start < b.end && b.start < a.end }

  /** For proper slots the test means what it should: some instant of one hall is in both. */
  lemma OverlapIsSharedInstant(a: Slot, b: Slot)
    requires a.Proper() && b.Proper()
    ensures Overlaps(a, b) <==> a.hall == b.hall && exists t :: a.Covers(t) && b.Covers(t)
  {
    var t := Max(a.start, b.start);
    if Overlaps(a, b) {
      assert a.Covers(t) && b.Covers(t);
    }
  }

  predicate Clashes(slot: Slot, b: Booking) { b.active && Overlaps(slot, b.slot) }

  predicate AnyClash(slot: Slot, bookings: seq<Booking>) { exists b :: b in bookings && Clashes(slot, b) }

  /** No two active bookings of one hall share an instant. */
  ghost predicate Exclusive(bookings: seq<Booking>) {
    forall i, j :: 0 <= i < j < |bookings| && bookings[i].active ==> !Clashes(bookings[i].slot, bookings[j])
  }

  // ---------- availability ----------

  /** Whether a hall is free in a window; without a window only the booked slots are listed. */
  method CheckHallAvailability(bookings: seq<Booking>, hall: nat, window: Option<(int, int)>)
    returns (available: bool, booked: seq<Slot>)
    ensures booked == ActiveSlots(bookings, hall)
    ensures window.None? ==> available
    ensures window.Some? ==> forall date ::
      (available <==> !AnyClash(Slot(hall, date, window.value.0, window.value.1), bookings))
  {
    booked := [];
    for k := 0 to |bookings|
      invariant booked == ActiveSlots(bookings[..k], hall)
    {
      assert bookings[..k + 1][..k] == bookings[..k];
      if bookings[k].active && bookings[k].slot.hall == hall { booked := booked + [bookings[k].slot]; }
    }
    assert bookings[..|bookings|] == bookings;

    available := true;
    if window.Some? {
      ActiveSlotsAreTheBookings(bookings, hall);
      var (start, end) := window.value;
      for k := 0 to |booked|
        invariant available
        invariant forall j :: 0 <= j < k ==> !(booked[j].start < end && booked[j].end > start)
      {
        if booked[k].start < end && booked[k].end > start {
          available := false;
          break;
        }
      }
      forall date
        ensures available <==> !AnyClash(Slot(hall, date, start, end), bookings)
      {
        var slot := Slot(hall, date, start, end);
        if AnyClash(slot, bookings) {
          var b :| b in bookings && Clashes(slot, b);
          assert b.slot in booked;
        }
        if !available {
          var s :| s in booked && s.start < end && s.end > start;
          assert s.hall == hall && Booking(s, true) in bookings;
          assert Clashes(slot, Booking(s, true));
        }
      }
    }
  }

  function ActiveSlots(bookings: seq<Booking>, hall: nat): seq<Slot> {
    if bookings == [] then []
    else
      var n := |bookings| - 1;
      var b := bookings[n];
      ActiveSlots(bookings[..n], hall) + (if b.active && b.slot.hall == hall then [b.slot] else [])
  }

  lemma {:induction false} ActiveSlotsAreTheBookings(bookings: seq<Booking>, hall: nat)
    ensures forall s :: s in ActiveSlots(bookings, hall) <==> s.hall == hall && Booking(s, true) in bookings
  {
    if bookings != [] {
      var n := |bookings| - 1;
      ActiveSlotsAreTheBookings(bookings[..n], hall);
      assert bookings == bookings[..n] + [bookings[n]];
    }
  }

  /** A proper slot is available exactly when confirming it keeps the hall free of double
      bookings. */
  lemma AvailableIffConfirmable(bookings: seq<Booking>, slot: Slot)
    requires Exclusive(bookings)
    ensures !AnyClash(slot, bookings) <==> Exclusive(bookings + [Booking(slot, true)])
  {
    var more := bookings + [Booking(slot, true)];
    if AnyClash(slot, bookings) {
      var i :| 0 <= i < |bookings| && Clashes(slot, bookings[i]);
      assert more[i] == bookings[i] && more[|bookings|] == Booking(slot, true);
    } else {
      forall i, j | 0 <= i < j < |more| && more[i].active
        ensures !Clashes(more[i].slot, more[j])
      {
        if j == |bookings| {
          assert bookings[i] in bookings && !Clashes(slot, bookings[i]);
        }
      }
    }
  }

  // ---------- the conflict query of the hall step ----------

  /** The hall step's own query also compares booking dates. */
  predicate DateConflict(slot: Slot, bookings: seq<Booking>) {
    exists b :: b in bookings && Clashes(slot, b) && b.slot.date == slot.date
  }

  const DAY := 1440

  /** The day a slot starts on. */
  function StartDay(s: Slot): int { s.start - s.start % DAY }

  ghost predicate RunsPastMidnight(s: Slot) { s.end > StartDay(s) + DAY }

  /** Nothing ties the date a request carries to the day it starts on. */
  ghost predicate Misdated(s: Slot) { s.date != StartDay(s) }

  /** The query misses a clash exactly when every clashing booking carries another date. Then of
      each clashing pair one slot is misdated, or one runs past midnight. */
  lemma DateConflictMissesWhen(slot: Slot, bookings: seq<Booking>)
    ensures AnyClash(slot, bookings) && !DateConflict(slot, bookings)
       <==> AnyClash(slot, bookings) && forall b :: b in bookings && Clashes(slot, b) ==> b.slot.date != slot.date
    ensures AnyClash(slot, bookings) && !DateConflict(slot, bookings) ==>
      forall b :: b in bookings && Clashes(slot, b) ==>
        Misdated(slot) || Misdated(b.slot) || RunsPastMidnight(slot) || RunsPastMidnight(b.slot)
  {
    forall b | b in bookings && Clashes(slot, b) && !RunsPastMidnight(slot) && !RunsPastMidnight(b.slot)
      ensures StartDay(b.slot) == StartDay(slot)
    {
      SameDay(StartDay(slot), StartDay(b.slot));
    }
  }

  /** Among slots dated by the day they start on, it misses a clash exactly when every clashing
      booking starts on another day. */
  lemma DateConflictOfDatedSlots(slot: Slot, bookings: seq<Booking>)
    requires !Misdated(slot) && forall b :: b in bookings && b.active ==> !Misdated(b.slot)
    ensures AnyClash(slot, bookings) && !DateConflict(slot, bookings)
       <==> && AnyClash(slot, bookings)
            && forall b :: b in bookings && Clashes(slot, b) ==> StartDay(b.slot) != StartDay(slot)
  {
  }

  /** A slot within the day it is dated. */
  ghost predicate WithinDay(s: Slot) { s.date % DAY == 0 && s.Proper() && s.date <= s.start && s.end <= s.date + DAY }

  /** Among slots that stay within the day they are dated, the query misses no clash. */
  lemma DateConflictIsComplete(slot: Slot, bookings: seq<Booking>)
    requires WithinDay(slot) && forall b :: b in bookings && b.active ==> WithinDay(b.slot)
    ensures DateConflict(slot, bookings) <==> AnyClash(slot, bookings)
  {
    if AnyClash(slot, bookings) {
      var b :| b in bookings && Clashes(slot, b);
      SameDay(slot.date, b.slot.date);
    }
  }

  lemma SameDay(a: int, b: int)
    requires a % DAY == 0 && b % DAY == 0 && a < b + DAY && b < a + DAY
    ensures a == b
  {
    var x, y := a / DAY, b / DAY;
    assert a == x * DAY && b == y * DAY;
  }

  /** A booking that runs past midnight is invisible to the query of the next day; only the
      exclusion constraint stops the second booking. */
  lemma DateConflictMissesOvernightBooking()
    ensures var late, early := Slot(1, 0, 1200, 1560), Slot(1, 1440, 1500, 1600);
            && !DateConflict(early, [Booking(late, true)])
            && AnyClash(early, [Booking(late, true)])
            && !Exclusive([Booking(late, true), Booking(early, true)])
  {
    var late, early := Slot(1, 0, 1200, 1560), Slot(1, 1440, 1500, 1600);
    var table := [Booking(late, true), Booking(early, true)];
    assert [Booking(late, true)][0] == Booking(late, true) && Clashes(early, Booking(late, true));
    assert Clashes(table[0].slot, table[1]);
  }

  /** A request may carry any date: the very slot that is booked, dated otherwise, is not seen to
      clash, though neither slot runs past midnight. */
  lemma DateConflictMissesMisdatedRequest()
    ensures var booked := Slot(1, 18_720, 20_000, 20_100);
            var asked := booked.(date := 0);
            && !Misdated(booked) && Misdated(asked)
            && !RunsPastMidnight(booked) && !RunsPastMidnight(asked)
            && AnyClash(asked, [Booking(booked, true)])
            && !DateConflict(asked, [Booking(booked, true)])
  {
    var booked := Slot(1, 18_720, 20_000, 20_100);
    assert Booking(booked, true) in [Booking(booked, true)] && Clashes(booked.(date := 0), Booking(booked, true));
  }
}
