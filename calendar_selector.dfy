/**
 * The weekly schedule editor of an offer (src/components/CalendarSelector.tsx):
 * each handler builds a new schedule value from the current one.
 */
module CalendarSelector {
  import opened Types
  import opened Sequences

  /** No weekday is listed twice. */
  predicate Distinct(days: seq<Weekday>) {
    forall i, j :: 0 <= i < j < |days| ==> days[i] != days[j]
  }

  /** The test that filters a day out: any other day passes. */
  function IsNot(day: Weekday): Weekday -> bool {
    d => d != day
  }

  /**
   * `toggleDay`: a listed day is removed wherever it occurs; an unlisted day
   * is appended at the end. The time window is carried over.
   */
  function ToggleDay(value: OfferSchedule, day: Weekday): (r: OfferSchedule)
    ensures r.startTime == value.startTime && r.endTime == value.endTime
    ensures day in value.days ==> day !in r.days && |r.days| < |value.days|
    ensures day !in value.days ==> r.days == value.days + [day]
  {
    var nextDays := if day in value.days then Filter(value.days, IsNot(day)) else value.days + [day];
    value.(days := nextDays)
  }

  /** The start-time input: only `startTime` changes. */
  function SetStartTime(value: OfferSchedule, time: string): (r: OfferSchedule)
    ensures r.startTime == time
    ensures r.days == value.days && r.endTime == value.endTime
  {
    value.(startTime := time)
  }

  /** The end-time input: only `endTime` changes. */
  function SetEndTime(value: OfferSchedule, time: string): (r: OfferSchedule)
    ensures r.endTime == time
    ensures r.days == value.days && r.startTime == value.startTime
  {
    value.(endTime := time)
  }

  /** The reset button: whatever the current schedule, no day is selected and the window is 17:00-20:00. */
  function ResetSchedule(value: OfferSchedule): (r: OfferSchedule)
    ensures forall d: Weekday :: d !in r.days
    ensures r.startTime == "17:00" && r.endTime == "20:00"
  {
    OfferSchedule([], "17:00", "20:00")
  }

  /** Toggling flips the membership of the toggled day and of no other day. */
  lemma ToggleFlipsOnlyThatDay(value: OfferSchedule, day: Weekday, other: Weekday)
    ensures day in ToggleDay(value, day).days <==> day !in value.days
    ensures other != day ==> (other in ToggleDay(value, day).days <==> other in value.days)
  {
    if day in value.days && other != day && other in value.days {
      var i :| 0 <= i < |value.days| && value.days[i] == other;
      assert IsNot(day)(value.days[i]);
    }
  }

  /** Filtering a day out of `before + [day] + after`, where `before` lacks it, leaves `before` whole. */
  lemma FilterOutFirst(before: seq<Weekday>, day: Weekday, after: seq<Weekday>)
    requires day !in before
    ensures Filter(before + [day] + after, IsNot(day)) == before + Filter(after, IsNot(day))
  {
    var keep := IsNot(day);
    FilterAppend(before + [day], after, keep);
    FilterAppend(before, [day], keep);
    FilterKeepsAll(before, keep);
    assert Filter([day], keep) == [] by { assert [day][1..] == []; }
    calc {
      Filter(before + [day] + after, keep);
      Filter(before + [day], keep) + Filter(after, keep);
      Filter(before, keep) + Filter([day], keep) + Filter(after, keep);
      { assert before + [] == before; }
      before + Filter(after, keep);
    }
  }

  /** Toggling a present day keeps the other days in their order: it equals filtering the day out. */
  lemma TogglePresentKeepsOrder(value: OfferSchedule, day: Weekday, before: seq<Weekday>, after: seq<Weekday>)
    requires value.days == before + [day] + after
    requires day !in before
    ensures ToggleDay(value, day).days == before + Filter(after, IsNot(day))
  {
    assert value.days[|before|] == day;
    FilterOutFirst(before, day, after);
  }

  /** Toggling an unlisted day twice gives back the original schedule. */
  lemma {:induction false} ToggleAbsentTwice(value: OfferSchedule, day: Weekday)
    requires day !in value.days
    ensures ToggleDay(ToggleDay(value, day), day) == value
  {
    var keep := IsNot(day);
    var once := ToggleDay(value, day);
    assert day in once.days;
    FilterAppend(value.days, [day], keep);
    FilterKeepsAll(value.days, keep);
    assert Filter([day], keep) == [];
  }

  /** Filtering a list without repetitions gives a list without repetitions. */
  lemma {:induction false} FilterDistinct(days: seq<Weekday>, keep: Weekday -> bool)
    requires Distinct(days)
    ensures Distinct(Filter(days, keep))
  {
    if days != [] {
      FilterDistinct(days[1..], keep);
      assert days[0] !in days[1..];
    }
  }

  /** Toggling keeps a schedule free of repeated days, so a schedule edited only by toggles never lists a day twice. */
  lemma ToggleKeepsDistinct(value: OfferSchedule, day: Weekday)
    requires Distinct(value.days)
    ensures Distinct(ToggleDay(value, day).days)
  {
    if day in value.days {
      FilterDistinct(value.days, IsNot(day));
    }
  }
}
