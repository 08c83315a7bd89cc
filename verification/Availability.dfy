/**
 Slot generation for one local day, the day-window queries that feed it, and the classification of a requested start.
 Instants are milliseconds; the local clock is the day's partial map from wall-clock times to instants.
 */
module Availability {
  import opened Wrappers
  import opened Errors
  import opened Sequences

  type Id = nat

  const MINUTE := 60_000
  const STEP := 15 * MINUTE

  datatype Eligible = Eligible(id: Id, name: string, durationMinutes: nat)
  datatype Schedule = Schedule(staff: Id, startsAt: string, endsAt: string)
  datatype Kind = AVAILABLE | UNAVAILABLE
  datatype Exception = Exception(staff: Id, kind: Kind, startsAt: int, endsAt: int)
  datatype Busy = Busy(staff: Id, startsAt: int, endsAt: int)
  datatype Interval = Interval(startsAt: int, endsAt: int)
  datatype Slot = Slot(staff: Id, name: string, startsAt: int, endsAt: int, durationMinutes: nat)

  /** The local day and its clock; a wall-clock time that the zone skips has no instant. */
  datatype Day = Day(start: int, end: int, clock: map<string, int>)

  /** Wall-clock times of the day denote instants of the day. */
  ghost predicate ClockWithinDay(day: Day) {
    forall text :: text in day.clock ==> day.start <= day.clock[text] <= day.end
  }

  type LocalDay = day: Day | ClockWithinDay(day) witness Day(0, 0, map[])

  datatype Input = Input(
    day: LocalDay,
    eligible: seq<Eligible>,
    schedules: seq<Schedule>,
    exceptions: seq<Exception>,
    appointments: set<Busy>)

  predicate Overlaps(startsAt: int, endsAt: int, otherStartsAt: int, otherEndsAt: int) {
    otherStartsAt < endsAt && otherEndsAt > startsAt
  }

  function Max(a: int, b: int): (r: int) { if a < b then b else a }
  function Min(a: int, b: int): (r: int) { if a < b then a else b }

  // ----- working time -----

  function Scheduled(day: LocalDay, schedules: seq<Schedule>, staff: Id): (r: seq<Interval>) {
    if |schedules| == 0 then []
    else
      var rest := Scheduled(day, schedules[..|schedules| - 1], staff);
      var item := schedules[|schedules| - 1];
      if item.staff == staff && item.startsAt in day.clock && item.endsAt in day.clock &&
         day.clock[item.startsAt] < day.clock[item.endsAt]
      then rest + [Interval(day.clock[item.startsAt], day.clock[item.endsAt])]
      else rest
  }

  function Opened(day: Day, exceptions: seq<Exception>, staff: Id): (r: seq<Interval>) {
    if |exceptions| == 0 then []
    else
      var rest := Opened(day, exceptions[..|exceptions| - 1], staff);
      var item := exceptions[|exceptions| - 1];
      var clipped := Interval(Max(item.startsAt, day.start), Min(item.endsAt, day.end));
      if item.staff == staff && item.kind.AVAILABLE? && clipped.startsAt < clipped.endsAt
      then rest + [clipped]
      else rest
  }

  function WorkingIntervals(input: Input, staff: Id): (r: seq<Interval>) {
    Scheduled(input.day, input.schedules, staff) + Opened(input.day, input.exceptions, staff)
  }

  // ----- what a slot is -----

  predicate Closed(exceptions: seq<Exception>, staff: Id, startsAt: int, endsAt: int) {
    exists x :: x in exceptions && x.staff == staff && x.kind.UNAVAILABLE? && Overlaps(startsAt, endsAt, x.startsAt, x.endsAt)
  }

  predicate Occupied(appointments: set<Busy>, staff: Id, startsAt: int, endsAt: int) {
    exists x :: x in appointments && x.staff == staff && Overlaps(startsAt, endsAt, x.startsAt, x.endsAt)
  }

  ghost predicate OnGrid(i: Interval, t: int, duration: int) {
    i.startsAt <= t && t + duration <= i.endsAt && (t - i.startsAt) % STEP == 0
  }

  ghost predicate Works(input: Input, staff: Id, t: int, duration: int) {
    exists i :: i in WorkingIntervals(input, staff) && OnGrid(i, t, duration)
  }

  /** The staff member is at work on a 15-minute step of the interval, for the whole duration, and nothing is in the way. */
  ghost predicate Offers(input: Input, e: Eligible, t: int) {
    var end := t + e.durationMinutes * MINUTE;
    && Works(input, e.id, t, e.durationMinutes * MINUTE)
    && !Closed(input.exceptions, e.id, t, end)
    && !Occupied(input.appointments, e.id, t, end)
  }

  function SlotAt(e: Eligible, t: int): (r: Slot) {
    Slot(e.id, e.name, t, t + e.durationMinutes * MINUTE, e.durationMinutes)
  }

  /** Ordered by start, then by name under the collation, then by id. */
  function SlotOrder(collate: string -> int): (r: (Slot, Slot) -> bool) {
    (a: Slot, b: Slot) =>
      a.startsAt < b.startsAt ||
      (a.startsAt == b.startsAt &&
        (collate(a.name) < collate(b.name) || (collate(a.name) == collate(b.name) && a.staff <= b.staff)))
  }

  lemma SlotOrderIsTotal(collate: string -> int)
    ensures TotalPreorder(SlotOrder(collate))
  {
  }

  /** Earlier starts come first, equal starts by name, equal names by identifier. */
  ghost predicate InSlotOrder(slots: seq<Slot>, collate: string -> int) {
    forall i, j :: 0 <= i < j < |slots| ==> ComesNoLater(slots[i], slots[j], collate)
  }

  predicate ComesNoLater(a: Slot, b: Slot, collate: string -> int) {
    && a.startsAt <= b.startsAt
    && (a.startsAt == b.startsAt ==> collate(a.name) <= collate(b.name))
    && (a.startsAt == b.startsAt && collate(a.name) == collate(b.name) ==> a.staff <= b.staff)
  }

  // ----- what is offered, in terms of what is stored -----

  /** The start is on a quarter of an hour from the opening, and the service ends by the closing. */
  predicate Fits(opensAt: int, closesAt: int, t: int, duration: int) {
    opensAt <= t && t + duration <= closesAt && (t - opensAt) % 900_000 == 0
  }

  /** A shift whose two wall-clock times exist on that day, in order. */
  predicate InShift(day: Day, s: Schedule, e: Eligible, t: int) {
    && s.staff == e.id && s.startsAt in day.clock && s.endsAt in day.clock && day.clock[s.startsAt] < day.clock[s.endsAt]
    && Fits(day.clock[s.startsAt], day.clock[s.endsAt], t, e.durationMinutes * 60_000)
  }

  /** Extra working time, as far as it falls on that day. */
  predicate InExtraTime(day: Day, x: Exception, e: Eligible, t: int) {
    var opensAt, closesAt := if x.startsAt < day.start then day.start else x.startsAt, if x.endsAt < day.end then x.endsAt else day.end;
    x.staff == e.id && x.kind.AVAILABLE? && opensAt < closesAt && Fits(opensAt, closesAt, t, e.durationMinutes * 60_000)
  }

  predicate Meets(startsAt: int, endsAt: int, t: int, e: Eligible) {
    startsAt < t + e.durationMinutes * 60_000 && t < endsAt
  }

  ghost predicate SomeOnGrid(working: seq<Interval>, t: int, duration: int) {
    exists i :: i in working && OnGrid(i, t, duration)
  }

  lemma GridAppend(working: seq<Interval>, i: Interval, t: int, duration: int)
    ensures SomeOnGrid(working + [i], t, duration) <==> SomeOnGrid(working, t, duration) || OnGrid(i, t, duration)
  {
    hide OnGrid;
    assert i in working + [i];
    forall x | x in working ensures x in working + [i] {
    }
  }

  ghost predicate SomeShift(day: Day, schedules: seq<Schedule>, e: Eligible, t: int) {
    exists s :: s in schedules && InShift(day, s, e, t)
  }

  ghost predicate SomeExtraTime(day: Day, exceptions: seq<Exception>, e: Eligible, t: int) {
    exists x :: x in exceptions && InExtraTime(day, x, e, t)
  }

  lemma SomeShiftAppend(day: Day, schedules: seq<Schedule>, last: Schedule, e: Eligible, t: int)
    ensures SomeShift(day, schedules + [last], e, t) <==> SomeShift(day, schedules, e, t) || InShift(day, last, e, t)
  {
    hide InShift;
    assert forall s :: s in schedules + [last] <==> s in schedules || s == last;
  }

  lemma SomeExtraTimeAppend(day: Day, exceptions: seq<Exception>, last: Exception, e: Eligible, t: int)
    ensures SomeExtraTime(day, exceptions + [last], e, t) <==> SomeExtraTime(day, exceptions, e, t) || InExtraTime(day, last, e, t)
  {
    hide InExtraTime;
    assert forall x :: x in exceptions + [last] <==> x in exceptions || x == last;
  }

  lemma {:induction false} ScheduledAre(day: LocalDay, schedules: seq<Schedule>, e: Eligible, t: int)
    ensures SomeOnGrid(Scheduled(day, schedules, e.id), t, e.durationMinutes * MINUTE) <==>
            SomeShift(day, schedules, e, t)
  {
    if |schedules| > 0 {
      var init, last := schedules[..|schedules| - 1], schedules[|schedules| - 1];
      ScheduledAre(day, init, e, t);
      assert schedules == init + [last];
      SomeShiftAppend(day, init, last, e, t);
      if last.startsAt in day.clock && last.endsAt in day.clock {
        GridAppend(Scheduled(day, init, e.id), Interval(day.clock[last.startsAt], day.clock[last.endsAt]), t, e.durationMinutes * MINUTE);
      }
      hide SomeOnGrid, SomeShift;
    }
  }

  lemma {:induction false} OpenedAre(day: Day, exceptions: seq<Exception>, e: Eligible, t: int)
    ensures SomeOnGrid(Opened(day, exceptions, e.id), t, e.durationMinutes * MINUTE) <==>
            SomeExtraTime(day, exceptions, e, t)
  {
    if |exceptions| > 0 {
      var init, last := exceptions[..|exceptions| - 1], exceptions[|exceptions| - 1];
      OpenedAre(day, init, e, t);
      assert exceptions == init + [last];
      SomeExtraTimeAppend(day, init, last, e, t);
      GridAppend(Opened(day, init, e.id), Interval(Max(last.startsAt, day.start), Min(last.endsAt, day.end)), t, e.durationMinutes * MINUTE);
      hide SomeOnGrid, SomeExtraTime;
    }
  }

  /**
   A staff member offers a start exactly if it fits one of their shifts or one of their extra working times of the day,
   and neither a closure of theirs nor an appointment of theirs meets the service.
   */
  lemma OfferedExactly(input: Input, e: Eligible, t: int)
    ensures Offers(input, e, t) <==>
            && ((exists s :: s in input.schedules && InShift(input.day, s, e, t)) ||
                (exists x :: x in input.exceptions && InExtraTime(input.day, x, e, t)))
            && (forall x :: x in input.exceptions && x.staff == e.id && x.kind.UNAVAILABLE? ==> !Meets(x.startsAt, x.endsAt, t, e))
            && (forall a :: a in input.appointments && a.staff == e.id ==> !Meets(a.startsAt, a.endsAt, t, e))
  {
    var end := t + e.durationMinutes * MINUTE;
    ScheduledAre(input.day, input.schedules, e, t);
    OpenedAre(input.day, input.exceptions, e, t);
    hide Scheduled, Opened, OnGrid, InShift, InExtraTime;
    assert Works(input, e.id, t, e.durationMinutes * MINUTE) <==>
           SomeOnGrid(Scheduled(input.day, input.schedules, e.id), t, e.durationMinutes * MINUTE) ||
           SomeOnGrid(Opened(input.day, input.exceptions, e.id), t, e.durationMinutes * MINUTE);
    assert Closed(input.exceptions, e.id, t, end) <==>
           exists x :: x in input.exceptions && x.staff == e.id && x.kind.UNAVAILABLE? && Meets(x.startsAt, x.endsAt, t, e);
    assert Occupied(input.appointments, e.id, t, end) <==>
           exists a :: a in input.appointments && a.staff == e.id && Meets(a.startsAt, a.endsAt, t, e);
  }

  // ----- the generator -----

  /** The slots already generated, keyed by staff member and start; the last writer of a key wins. */
  ghost predicate Generated(input: Input, slots: map<(Id, int), Slot>, done: int) {
    && 0 <= done <= |input.eligible|
    && (forall k :: k in slots ==> slots[k].staff == k.0 && slots[k].startsAt == k.1)
    && (forall k :: k in slots ==> exists j :: 0 <= j < done && OffersSlot(input, input.eligible[j], slots[k]))
    && (forall j, t :: 0 <= j < done && Offers(input, input.eligible[j], t) ==> (input.eligible[j].id, t) in slots)
  }

  ghost predicate OffersSlot(input: Input, e: Eligible, s: Slot) {
    && Offers(input, e, s.startsAt)
    && s == Slot(e.id, e.name, s.startsAt, s.startsAt + e.durationMinutes * 60_000, e.durationMinutes)
  }

  /** Offered through one of the first `n` working intervals, or through interval `n` at a start before `limit`. */
  ghost predicate OfferedUpTo(input: Input, e: Eligible, t: int, n: nat, limit: int) {
    Offers(input, e, t) && exists i :: ReachedIn(WorkingIntervals(input, e.id), e.durationMinutes * MINUTE, t, n, limit, i)
  }

  ghost predicate ReachedIn(working: seq<Interval>, duration: int, t: int, n: nat, limit: int, i: int) {
    0 <= i <= n && i < |working| && OnGrid(working[i], t, duration) && (i == n ==> t < limit)
  }

  ghost predicate Extends(input: Input, e: Eligible, slots0: map<(Id, int), Slot>, slots: map<(Id, int), Slot>) {
    && slots0.Keys <= slots.Keys
    && forall k :: k in slots ==>
         && slots[k].staff == k.0 && slots[k].startsAt == k.1
         && (OffersSlot(input, e, slots[k]) || (k in slots0 && slots[k] == slots0[k]))
  }

  /** The generated list is exactly what is offered: nothing is missing, nothing else is listed, nothing is listed twice. */
  ghost predicate Exact(input: Input, result: seq<Slot>) {
    && (forall s :: s in result ==> exists e :: e in input.eligible && OffersSlot(input, e, s))
    && (forall e, t :: e in input.eligible && Offers(input, e, t) ==> ListsStart(result, e.id, t))
    && StartsDistinct(result)
  }

  ghost predicate StartsDistinct(slots: seq<Slot>) {
    forall i, j :: 0 <= i < j < |slots| ==> !SameStart(slots[i], slots[j])
  }

  predicate SameStart(s: Slot, z: Slot) { s.staff == z.staff && s.startsAt == z.startsAt }

  ghost predicate ListsStart(result: seq<Slot>, staff: Id, t: int) {
    exists s :: s in result && s.staff == staff && s.startsAt == t
  }

  method BuildAvailabilitySlots(input: Input, collate: string -> int) returns (result: seq<Slot>)
    ensures Exact(input, result)
    ensures InSlotOrder(result, collate)
  {
    var slots: map<(Id, int), Slot> := map[];
    var order: seq<(Id, int)> := [];
    for n := 0 to |input.eligible|
      invariant Generated(input, slots, n)
      invariant Lists(order, slots)
    {
      slots, order := AddStaff(input, n, slots, order);
    }
    var values := seq(|order|, i requires 0 <= i < |order| => assert order[i] in order; slots[order[i]]);
    result := Sort(values, SlotOrder(collate));
    SlotOrderIsTotal(collate);
    SortIsSorted(values, SlotOrder(collate));
    ListedIsExact(input, slots, order, values, result);
  }

  lemma ListedIsExact(input: Input, slots: map<(Id, int), Slot>, order: seq<(Id, int)>, values: seq<Slot>, result: seq<Slot>)
    requires Generated(input, slots, |input.eligible|)
    requires Lists(order, slots)
    requires |values| == |order| && forall i :: 0 <= i < |order| ==> order[i] in slots && values[i] == slots[order[i]]
    requires multiset(result) == multiset(values)
    ensures Exact(input, result)
  {
    SortedValuesKeepKeys(values, order, result);
    SameElements(values, result);
    forall e, t | e in input.eligible && Offers(input, e, t) ensures ListsStart(result, e.id, t) {
      var j :| 0 <= j < |input.eligible| && input.eligible[j] == e;
      assert (e.id, t) in slots && (e.id, t) in order;
      var i :| 0 <= i < |order| && order[i] == (e.id, t);
      assert values[i] in result;
    }
    forall s | s in result ensures exists e :: e in input.eligible && OffersSlot(input, e, s) {
      assert s in values;
      var i :| 0 <= i < |values| && values[i] == s;
      var j :| 0 <= j < |input.eligible| && OffersSlot(input, input.eligible[j], slots[order[i]]);
    }
  }

  ghost predicate Covers(input: Input, e: Eligible, slots: map<(Id, int), Slot>, n: nat, limit: int) {
    forall t :: OfferedUpTo(input, e, t, n, limit) ==> (e.id, t) in slots
  }

  ghost predicate Lists(order: seq<(Id, int)>, slots: map<(Id, int), Slot>) {
    NoDuplicates(order) && forall k :: k in order <==> k in slots
  }

  /** One staff member's pass over their working intervals. */
  method AddStaff(input: Input, n: nat, slots0: map<(Id, int), Slot>, order0: seq<(Id, int)>)
    returns (slots: map<(Id, int), Slot>, order: seq<(Id, int)>)
    requires n < |input.eligible| && Generated(input, slots0, n) && Lists(order0, slots0)
    ensures Generated(input, slots, n + 1) && Lists(order, slots)
  {
    slots, order := slots0, order0;
    var e := input.eligible[n];
    var working := WorkingIntervals(input, e.id);
    for w := 0 to |working|
      invariant Extends(input, e, slots0, slots)
      invariant Covers(input, e, slots, w, if w < |working| then working[w].startsAt else 0)
      invariant Lists(order, slots)
    {
      slots, order := AddInterval(input, e, w, slots0, slots, order);
    }
    EverythingCovered(input, e, slots);
    PassExtendsGenerated(input, n, slots0, slots);
  }

  /** The cursor's walk over one working interval. */
  method AddInterval(input: Input, e: Eligible, w: nat, ghost first: map<(Id, int), Slot>,
                     slots0: map<(Id, int), Slot>, order0: seq<(Id, int)>)
    returns (slots: map<(Id, int), Slot>, order: seq<(Id, int)>)
    requires w < |WorkingIntervals(input, e.id)| && Extends(input, e, first, slots0) && Lists(order0, slots0)
    requires Covers(input, e, slots0, w, WorkingIntervals(input, e.id)[w].startsAt)
    ensures Extends(input, e, first, slots) && Lists(order, slots)
    ensures var working := WorkingIntervals(input, e.id);
            Covers(input, e, slots, w + 1, if w + 1 < |working| then working[w + 1].startsAt else 0)
  {
    slots, order := slots0, order0;
    var interval := WorkingIntervals(input, e.id)[w];
    var duration := e.durationMinutes * MINUTE;
    var startsAt := interval.startsAt;
    while startsAt + duration <= interval.endsAt
      invariant interval.startsAt <= startsAt && (startsAt - interval.startsAt) % STEP == 0
      invariant Extends(input, e, first, slots) && Lists(order, slots)
      invariant Covers(input, e, slots, w, startsAt)
    {
      var endsAt := startsAt + duration;
      ghost var before := slots;
      if !Closed(input.exceptions, e.id, startsAt, endsAt) && !Occupied(input.appointments, e.id, startsAt, endsAt) {
        assert interval in WorkingIntervals(input, e.id) && OnGrid(interval, startsAt, duration);
        assert OffersSlot(input, e, SlotAt(e, startsAt));
        if (e.id, startsAt) !in slots {
          order := order + [(e.id, startsAt)];
        }
        slots := slots[(e.id, startsAt) := SlotAt(e, startsAt)];
      }
      StepCovers(input, e, before, slots, w, startsAt);
      startsAt := startsAt + STEP;
    }
    IntervalCovers(input, e, slots, w, startsAt);
  }

  /** The cursor visits every grid point: nothing offered lies strictly between two visits. */
  lemma StepCovers(input: Input, e: Eligible, before: map<(Id, int), Slot>, slots: map<(Id, int), Slot>, w: nat, startsAt: int)
    requires var working := WorkingIntervals(input, e.id);
             w < |working| && working[w].startsAt <= startsAt && (startsAt - working[w].startsAt) % STEP == 0
    requires Covers(input, e, before, w, startsAt) && before.Keys <= slots.Keys
    requires Offers(input, e, startsAt) ==> (e.id, startsAt) in slots
    ensures Covers(input, e, slots, w, startsAt + STEP)
  {
    var working := WorkingIntervals(input, e.id);
    var duration := e.durationMinutes * MINUTE;
    forall t | OfferedUpTo(input, e, t, w, startsAt + STEP) ensures (e.id, t) in slots {
      var i :| ReachedIn(working, duration, t, w, startsAt + STEP, i);
      if i == w && t >= startsAt {
        SameResidue(t - working[w].startsAt, startsAt - working[w].startsAt);
      } else {
        assert ReachedIn(working, duration, t, w, startsAt, i);
      }
    }
  }

  lemma SameResidue(a: int, b: int)
    requires a % STEP == 0 && b % STEP == 0 && b <= a < b + STEP
    ensures a == b
  {
  }

  lemma IntervalCovers(input: Input, e: Eligible, slots: map<(Id, int), Slot>, w: nat, startsAt: int)
    requires var working := WorkingIntervals(input, e.id);
             w < |working| && startsAt + e.durationMinutes * MINUTE > working[w].endsAt
    requires Covers(input, e, slots, w, startsAt)
    ensures var working := WorkingIntervals(input, e.id);
            Covers(input, e, slots, w + 1, if w + 1 < |working| then working[w + 1].startsAt else 0)
  {
    var working := WorkingIntervals(input, e.id);
    var duration := e.durationMinutes * MINUTE;
    var limit := if w + 1 < |working| then working[w + 1].startsAt else 0;
    forall t | OfferedUpTo(input, e, t, w + 1, limit) ensures (e.id, t) in slots {
      var i :| ReachedIn(working, duration, t, w + 1, limit, i);
      assert ReachedIn(working, duration, t, w, startsAt, i);
    }
  }

  lemma EverythingCovered(input: Input, e: Eligible, slots: map<(Id, int), Slot>)
    requires Covers(input, e, slots, |WorkingIntervals(input, e.id)|, 0)
    ensures forall t :: Offers(input, e, t) ==> (e.id, t) in slots
  {
    var working := WorkingIntervals(input, e.id);
    var duration := e.durationMinutes * MINUTE;
    forall t | Offers(input, e, t) ensures (e.id, t) in slots {
      var i :| i in working && OnGrid(i, t, duration);
      var x :| 0 <= x < |working| && working[x] == i;
      assert ReachedIn(working, duration, t, |working|, 0, x);
    }
  }

  lemma PassExtendsGenerated(input: Input, n: nat, slots0: map<(Id, int), Slot>, slots: map<(Id, int), Slot>)
    requires n < |input.eligible| && Generated(input, slots0, n) && Extends(input, input.eligible[n], slots0, slots)
    requires forall t :: Offers(input, input.eligible[n], t) ==> (input.eligible[n].id, t) in slots
    ensures Generated(input, slots, n + 1)
  {
    forall k | k in slots ensures exists j :: 0 <= j < n + 1 && OffersSlot(input, input.eligible[j], slots[k]) {
      if OffersSlot(input, input.eligible[n], slots[k]) {
      } else {
        var j :| 0 <= j < n && OffersSlot(input, input.eligible[j], slots0[k]);
      }
    }
  }

  lemma SortedValuesKeepKeys(values: seq<Slot>, order: seq<(Id, int)>, result: seq<Slot>)
    requires |values| == |order| && NoDuplicates(order) && multiset(values) == multiset(result)
    requires forall i :: 0 <= i < |order| ==> (values[i].staff, values[i].startsAt) == order[i]
    ensures StartsDistinct(result)
  {
    assert NoDuplicates(values) by {
      forall i, j | 0 <= i < j < |values| ensures values[i] != values[j] {
        assert order[i] != order[j];
      }
    }
    SameElements(values, result);
    forall i, j | 0 <= i < j < |result| ensures !SameStart(result[i], result[j]) {
      assert result[i] in values && result[j] in values;
      var x :| 0 <= x < |values| && values[x] == result[i];
      var y :| 0 <= y < |values| && values[y] == result[j];
      assert result[i] != result[j];
      assert x != y;
      assert order[x] != order[y];
    }
  }

  // ----- the day window -----

  predicate TouchesDay(day: Day, startsAt: int, endsAt: int) {
    startsAt < day.end && endsAt > day.start
  }

  function ExceptionsOfDay(day: Day, exceptions: seq<Exception>): (r: seq<Exception>) {
    if |exceptions| == 0 then []
    else
      var rest := ExceptionsOfDay(day, exceptions[..|exceptions| - 1]);
      var x := exceptions[|exceptions| - 1];
      if TouchesDay(day, x.startsAt, x.endsAt) then rest + [x] else rest
  }

  /** What the queries fetch for one day out of everything stored. */
  function Windowed(all: Input): (r: Input) {
    all.(exceptions := ExceptionsOfDay(all.day, all.exceptions),
         appointments := set b | b in all.appointments && TouchesDay(all.day, b.startsAt, b.endsAt))
  }

  lemma {:induction false} OpenedIgnoresOtherDays(day: Day, exceptions: seq<Exception>, staff: Id)
    ensures Opened(day, ExceptionsOfDay(day, exceptions), staff) == Opened(day, exceptions, staff)
  {
    if |exceptions| > 0 {
      var init := exceptions[..|exceptions| - 1];
      OpenedIgnoresOtherDays(day, init, staff);
      var kept := ExceptionsOfDay(day, init);
      assert (kept + [exceptions[|exceptions| - 1]])[..|kept|] == kept;
    }
  }

  lemma {:induction false} ExceptionsOfDayAre(day: Day, exceptions: seq<Exception>)
    ensures forall x :: x in ExceptionsOfDay(day, exceptions) <==> x in exceptions && TouchesDay(day, x.startsAt, x.endsAt)
  {
    if |exceptions| > 0 {
      ExceptionsOfDayAre(day, exceptions[..|exceptions| - 1]);
      assert exceptions == exceptions[..|exceptions| - 1] + [exceptions[|exceptions| - 1]];
    }
  }

  lemma {:induction false} ScheduledWithinDay(day: LocalDay, schedules: seq<Schedule>, staff: Id)
    ensures forall i :: i in Scheduled(day, schedules, staff) ==> day.start <= i.startsAt && i.endsAt <= day.end
  {
    if |schedules| > 0 {
      ScheduledWithinDay(day, schedules[..|schedules| - 1], staff);
    }
  }

  lemma {:induction false} OpenedWithinDay(day: Day, exceptions: seq<Exception>, staff: Id)
    ensures forall i :: i in Opened(day, exceptions, staff) ==> day.start <= i.startsAt && i.endsAt <= day.end
  {
    if |exceptions| > 0 {
      OpenedWithinDay(day, exceptions[..|exceptions| - 1], staff);
    }
  }

  /** Fetching only what touches the day offers exactly the slots that fetching everything would. */
  lemma WindowLosesNothing(all: Input, e: Eligible, t: int)
    ensures Offers(Windowed(all), e, t) <==> Offers(all, e, t)
  {
    var day := all.day;
    var end := t + e.durationMinutes * MINUTE;
    OpenedIgnoresOtherDays(day, all.exceptions, e.id);
    assert WorkingIntervals(Windowed(all), e.id) == WorkingIntervals(all, e.id);
    if Works(all, e.id, t, e.durationMinutes * MINUTE) {
      ScheduledWithinDay(day, all.schedules, e.id);
      OpenedWithinDay(day, all.exceptions, e.id);
      ExceptionsOfDayAre(day, all.exceptions);
      assert day.start <= t && end <= day.end;
      assert forall x :: x in all.exceptions && Overlaps(t, end, x.startsAt, x.endsAt) ==> TouchesDay(day, x.startsAt, x.endsAt);
      assert forall x :: x in all.appointments && Overlaps(t, end, x.startsAt, x.endsAt) ==> TouchesDay(day, x.startsAt, x.endsAt);
      assert Closed(Windowed(all).exceptions, e.id, t, end) <==> Closed(all.exceptions, e.id, t, end);
      assert Occupied(Windowed(all).appointments, e.id, t, end) <==> Occupied(all.appointments, e.id, t, end);
    }
  }

  // ----- a requested start -----

  /** Some eligible staff member offers a slot at this start, which is still in the future. */
  ghost predicate Bookable(input: Input, t: int, now: int) {
    t > now && exists e :: e in input.eligible && Offers(input, e, t)
  }

  /** The future part of what is offered, per staff member: nothing is missing, nothing else is listed, nothing is listed twice. */
  ghost predicate ExactFuture(input: Input, slots: seq<Slot>, now: int) {
    && (forall s :: s in slots ==> s.startsAt > now && exists e :: e in input.eligible && OffersSlot(input, e, s))
    && (forall e, t :: e in input.eligible && t > now && Offers(input, e, t) ==> ListsStart(slots, e.id, t))
    && StartsDistinct(slots)
  }

  method Compute(all: Input, collate: string -> int, now: int) returns (slots: seq<Slot>)
    ensures ExactFuture(all, slots, now)
    ensures forall t :: (exists s :: s in slots && s.startsAt == t) <==> Bookable(all, t, now)
    ensures InSlotOrder(slots, collate)
  {
    var built := BuildAvailabilitySlots(Windowed(all), collate);
    slots := Future(built, now);
    FutureKeepsOrder(built, now, collate);
    FutureIsExact(all, built, now);
    forall t ensures (exists s :: s in slots && s.startsAt == t) <==> Bookable(all, t, now) {
      ListedIsBookable(all, built, t, now);
    }
  }

  function Future(slots: seq<Slot>, now: int): (r: seq<Slot>)
    ensures forall s :: s in r <==> s in slots && s.startsAt > now
  {
    if |slots| == 0 then []
    else (if slots[0].startsAt > now then [slots[0]] else []) + Future(slots[1..], now)
  }

  lemma {:induction false} FutureKeepsOrder(slots: seq<Slot>, now: int, collate: string -> int)
    requires InSlotOrder(slots, collate)
    ensures InSlotOrder(Future(slots, now), collate)
  {
    if |slots| > 0 {
      assert forall i :: 0 <= i < |slots[1..]| ==> slots[1..][i] == slots[i + 1];
      FutureKeepsOrder(slots[1..], now, collate);
      var rest := Future(slots[1..], now);
      forall j | 0 <= j < |rest| ensures ComesNoLater(slots[0], rest[j], collate) {
        assert rest[j] in slots[1..];
        var k :| 0 <= k < |slots[1..]| && slots[1..][k] == rest[j];
        assert ComesNoLater(slots[0], slots[k + 1], collate);
      }
      hide ComesNoLater;
    }
  }

  lemma {:induction false} FutureKeepsDistinct(slots: seq<Slot>, now: int)
    requires StartsDistinct(slots)
    ensures StartsDistinct(Future(slots, now))
  {
    if |slots| > 0 {
      var rest := Future(slots[1..], now);
      assert forall i :: 0 <= i < |slots[1..]| ==> slots[1..][i] == slots[i + 1];
      FutureKeepsDistinct(slots[1..], now);
      forall s | s in rest ensures !SameStart(slots[0], s) {
        var k :| 0 <= k < |slots[1..]| && slots[1..][k] == s;
        assert !SameStart(slots[0], slots[k + 1]);
      }
      PrependDistinct(slots[0], rest);
      hide StartsDistinct, SameStart;
    }
  }

  lemma PrependDistinct(first: Slot, rest: seq<Slot>)
    requires StartsDistinct(rest) && forall s :: s in rest ==> !SameStart(first, s)
    ensures StartsDistinct([first] + rest) && [] + rest == rest
  {
    hide SameStart;
    var all := [first] + rest;
    forall i, j | 0 <= i < j < |all| ensures !SameStart(all[i], all[j]) {
      assert all[j] == rest[j - 1];
      assert i > 0 ==> all[i] == rest[i - 1];
    }
  }

  lemma FutureIsExact(all: Input, built: seq<Slot>, now: int)
    requires Exact(Windowed(all), built)
    ensures ExactFuture(all, Future(built, now), now)
  {
    var slots := Future(built, now);
    FutureKeepsDistinct(built, now);
    forall s | s in slots ensures exists e :: e in all.eligible && OffersSlot(all, e, s) {
      var e :| e in all.eligible && OffersSlot(Windowed(all), e, s);
      WindowLosesNothing(all, e, s.startsAt);
      assert OffersSlot(all, e, s);
    }
    forall e, t | e in all.eligible && t > now && Offers(all, e, t) ensures ListsStart(slots, e.id, t) {
      WindowLosesNothing(all, e, t);
      assert ListsStart(built, e.id, t);
      var s :| s in built && s.staff == e.id && s.startsAt == t;
      assert s in slots;
    }
  }

  lemma ListedIsBookable(all: Input, built: seq<Slot>, t: int, now: int)
    requires Exact(Windowed(all), built)
    ensures (exists s :: s in Future(built, now) && s.startsAt == t) <==> Bookable(all, t, now)
  {
    if s :| s in Future(built, now) && s.startsAt == t {
      assert s in built;
      var e :| e in all.eligible && OffersSlot(Windowed(all), e, s);
      WindowLosesNothing(all, e, t);
    }
    if Bookable(all, t, now) {
      var e :| e in all.eligible && Offers(all, e, t);
      WindowLosesNothing(all, e, t);
      assert ListsStart(built, e.id, t);
      var s :| s in built && s.staff == e.id && s.startsAt == t;
      assert s in Future(built, now);
    }
  }

  predicate HasRequestedSlot(slots: seq<Slot>, requested: int) {
    exists s :: s in slots && s.startsAt == requested
  }

  function WithoutAppointments(input: Input): (r: Input) {
    input.(appointments := {})
  }

  /** The answer for a requested start, for one fixed value of the clock. */
  ghost function Verdict(all: Input, requested: int, now: int): (r: Option<Error>) {
    if requested <= now then Some(APPOINTMENT_STARTS_AT_PAST)
    else if Bookable(all, requested, now) then None
    else if Bookable(WithoutAppointments(all), requested, now) then Some(APPOINTMENT_SLOT_CONFLICT)
    else Some(APPOINTMENT_SLOT_UNAVAILABLE)
  }

  method AssertSlotAvailable(all: Input, collate: string -> int, requested: int, now: int) returns (refused: Option<Error>)
    ensures refused == Verdict(all, requested, now)
  {
    if requested <= now {
      return Some(APPOINTMENT_STARTS_AT_PAST);
    }
    var slots := Compute(all, collate, now);
    if HasRequestedSlot(slots, requested) {
      return None;
    }
    var potential := Compute(WithoutAppointments(all), collate, now);
    if HasRequestedSlot(potential, requested) {
      return Some(APPOINTMENT_SLOT_CONFLICT);
    }
    return Some(APPOINTMENT_SLOT_UNAVAILABLE);
  }

  /** Appointments only remove slots. */
  lemma AppointmentsOnlyRemove(input: Input, e: Eligible, t: int)
    ensures Offers(input, e, t) <==>
            Offers(WithoutAppointments(input), e, t) && !Occupied(input.appointments, e.id, t, t + e.durationMinutes * MINUTE)
  {
    assert WorkingIntervals(input, e.id) == WorkingIntervals(WithoutAppointments(input), e.id);
    assert !Occupied({}, e.id, t, t + e.durationMinutes * MINUTE);
  }

  /**
   A conflict answer means exactly: a future start that some eligible staff member would offer on an empty agenda,
   and everyone who would is taken. An unavailable answer means that nobody would offer it even on an empty agenda, and
   no refusal that somebody offers it in the future.
   */
  lemma ConflictMeansFreeButForAppointments(all: Input, requested: int, now: int)
    ensures Verdict(all, requested, now) == Some(APPOINTMENT_SLOT_CONFLICT) <==>
            && requested > now
            && (exists e :: e in all.eligible && Offers(WithoutAppointments(all), e, requested))
            && (forall e :: e in all.eligible && Offers(WithoutAppointments(all), e, requested) ==>
                  Occupied(all.appointments, e.id, requested, requested + e.durationMinutes * MINUTE))
    ensures Verdict(all, requested, now) == Some(APPOINTMENT_SLOT_UNAVAILABLE) <==>
            requested > now && forall e :: e in all.eligible ==> !Offers(WithoutAppointments(all), e, requested)
    ensures Verdict(all, requested, now) == Some(APPOINTMENT_STARTS_AT_PAST) <==> requested <= now
    ensures Verdict(all, requested, now).None? <==> requested > now && exists e :: e in all.eligible && Offers(all, e, requested)
  {
    forall e
      ensures Offers(all, e, requested) <==>
              Offers(WithoutAppointments(all), e, requested) &&
              !Occupied(all.appointments, e.id, requested, requested + e.durationMinutes * MINUTE)
    {
      AppointmentsOnlyRemove(all, e, requested);
    }
    if requested > now && Bookable(all, requested, now) {
      var e :| e in all.eligible && Offers(all, e, requested);
      assert Offers(WithoutAppointments(all), e, requested);
    }
  }
}
