/**
 * Schedule overrides: a coach can pin a date to a rest day or to a chosen
 * program workout. The shipped list is empty; the lookup returns the first
 * override whose date key equals the date's key, or null.
 */
module ScheduleOverrides {
  import opened Wrappers
  import opened Workouts
  import opened Dates

  datatype OverrideType = Rest | Template

  /** An override; the month and day keys are optional and set only for templates by the editor. */
  datatype ScheduleOverride = ScheduleOverride(
    date: string,
    kind: OverrideType,
    monthKey: Option<MonthKey>,
    dayKey: Option<DayKey>)

  /** `SCHEDULE_OVERRIDES` as shipped: no overrides. */
  const ShippedOverrides: seq<ScheduleOverride> := []

  /** `Array.prototype.find` on the override list with the test `o.date === iso`. */
  function FindByDate(overrides: seq<ScheduleOverride>, iso: string): (r: Option<ScheduleOverride>)
    ensures r.None? <==> forall k :: 0 <= k < |overrides| ==> overrides[k].date != iso
    ensures r.Some? ==> r.value.date == iso
    ensures r.Some? ==>
      exists k :: 0 <= k < |overrides| && overrides[k] == r.value &&
        forall j :: 0 <= j < k ==> overrides[j].date != iso
  {
    if |overrides| == 0 then None
    else if overrides[0].date == iso then Some(overrides[0])
    else
      var rest := FindByDate(overrides[1..], iso);
      assert forall k :: 1 <= k < |overrides| ==> overrides[k] == overrides[1..][k - 1];
      rest
  }

  /** `findOverrideForDate`: the lookup over the shipped list, keyed by the date's UTC key. */
  function FindOverrideForDate(d: DateInfo): (r: Option<ScheduleOverride>)
    ensures r.Some? ==> r.value.date == d.isoKey
    ensures r.Some? && ValidDate(d) ==> |r.value.date| == 10
  {
    FindByDate(ShippedOverrides, d.isoKey)
  }

  /** With the shipped, empty list no date has an override. */
  lemma ShippedListHasNoOverride(d: DateInfo)
    ensures FindOverrideForDate(d) == None
  {
  }

  /** The lookup looks only at the dates: two lists that agree up to the first match give the same answer. */
  lemma {:induction false} FindByDateIgnoresLaterEntries(front: seq<ScheduleOverride>, back: seq<ScheduleOverride>, iso: string)
    requires FindByDate(front, iso).Some?
    ensures FindByDate(front + back, iso) == FindByDate(front, iso)
  {
    if front[0].date != iso {
      assert (front + back)[1..] == front[1..] + back;
      FindByDateIgnoresLaterEntries(front[1..], back, iso);
    }
  }
}
