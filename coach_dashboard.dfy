/**
 * The coach dashboard: behind a PIN, a coach keeps a list of schedule
 * overrides. Adding an override for a date replaces any earlier one for that
 * date and appends the new one; removing drops every override for the date;
 * the export and the table show the list sorted by date.
 */
module CoachDashboard {
  import opened Wrappers
  import opened Workouts
  import opened ScheduleOverrides

  /** `COACH_PIN`. */
  const CoachPin: string := "7391"

  // ---------------------------------------------------------------------
  // Date keys in string order
  // ---------------------------------------------------------------------

  /**
   * `a.localeCompare(b) <= 0` on date keys, taken as code-unit lexicographic
   * order (a prefix comes first).
   */
  predicate DateLe(a: string, b: string) {
    if |a| == 0 then true
    else if |b| == 0 then false
    else if a[0] != b[0] then a[0] < b[0]
    else DateLe(a[1..], b[1..])
  }

  lemma {:induction false} DateLeTotal(a: string, b: string)
    ensures DateLe(a, b) || DateLe(b, a)
  {
    if |a| > 0 && |b| > 0 && a[0] == b[0] {
      DateLeTotal(a[1..], b[1..]);
    }
  }

  lemma {:induction false} DateLeTransitive(a: string, b: string, c: string)
    requires DateLe(a, b) && DateLe(b, c)
    ensures DateLe(a, c)
  {
    if |a| > 0 && |b| > 0 && |c| > 0 && a[0] == b[0] && b[0] == c[0] {
      DateLeTransitive(a[1..], b[1..], c[1..]);
    }
  }

  lemma {:induction false} DateLeAntisymmetric(a: string, b: string)
    requires DateLe(a, b) && DateLe(b, a)
    ensures a == b
  {
    if |a| > 0 && |b| > 0 {
      DateLeAntisymmetric(a[1..], b[1..]);
      assert a == [a[0]] + a[1..] && b == [b[0]] + b[1..];
    }
  }

  ghost predicate SortedByDate(s: seq<ScheduleOverride>) {
    forall i, j :: 0 <= i < j < |s| ==> DateLe(s[i].date, s[j].date)
  }

  // ---------------------------------------------------------------------
  // The list operations behind the handlers
  // ---------------------------------------------------------------------

  /** `overrides.filter((o) => o.date !== date)`. */
  function WithoutDate(overrides: seq<ScheduleOverride>, date: string): (r: seq<ScheduleOverride>)
    ensures |r| <= |overrides|
    ensures forall k :: 0 <= k < |r| ==> r[k].date != date
    ensures forall o :: o in r <==> o in overrides && o.date != date
  {
    if |overrides| == 0 then []
    else
      var rest := WithoutDate(overrides[1..], date);
      assert forall o :: o in overrides <==> o == overrides[0] || o in overrides[1..];
      if overrides[0].date == date then rest else [overrides[0]] + rest
  }

  /** The override the form describes: month and day keys only for a template. */
  function NewOverride(date: string, kind: OverrideType, month: MonthKey, day: DayKey): (o: ScheduleOverride)
    ensures o.date == date && o.kind == kind
    ensures kind == Rest ==> o.monthKey == None && o.dayKey == None
    ensures kind == Template ==> o.monthKey == Some(month) && o.dayKey == Some(day)
  {
    ScheduleOverride(date, kind,
      if kind == Template then Some(month) else None,
      if kind == Template then Some(day) else None)
  }

  /** The list `handleAddOverride` stores: the others, then the new override. */
  function Upserted(overrides: seq<ScheduleOverride>, o: ScheduleOverride): (r: seq<ScheduleOverride>)
    ensures |r| >= 1 && r[|r| - 1] == o
  {
    WithoutDate(overrides, o.date) + [o]
  }

  /** Stable insertion of `o` before the first entry that does not sort before it. */
  function InsertByDate(o: ScheduleOverride, sorted: seq<ScheduleOverride>): (r: seq<ScheduleOverride>)
    ensures multiset(r) == multiset(sorted) + multiset{o}
    ensures forall x :: x in r <==> x == o || x in sorted
  {
    if |sorted| == 0 then [o]
    else if DateLe(o.date, sorted[0].date) then [o] + sorted
    else
      assert sorted == [sorted[0]] + sorted[1..];
      [sorted[0]] + InsertByDate(o, sorted[1..])
  }

  /** `[...overrides].sort((a, b) => a.date.localeCompare(b.date))`. */
  function SortByDate(overrides: seq<ScheduleOverride>): (r: seq<ScheduleOverride>)
    ensures multiset(r) == multiset(overrides)
  {
    if |overrides| == 0 then []
    else
      assert overrides == [overrides[0]] + overrides[1..];
      InsertByDate(overrides[0], SortByDate(overrides[1..]))
  }

  lemma ConsSorted(x: ScheduleOverride, tail: seq<ScheduleOverride>)
    requires SortedByDate(tail)
    requires forall y :: y in tail ==> DateLe(x.date, y.date)
    ensures SortedByDate([x] + tail)
  {
    var r := [x] + tail;
    forall i, j | 0 <= i < j < |r| ensures DateLe(r[i].date, r[j].date) {
      if i == 0 {
        assert r[j] == tail[j - 1];
      } else {
        assert r[i] == tail[i - 1] && r[j] == tail[j - 1];
      }
    }
  }

  lemma {:induction false} InsertByDateSorted(o: ScheduleOverride, sorted: seq<ScheduleOverride>)
    requires SortedByDate(sorted)
    ensures SortedByDate(InsertByDate(o, sorted))
  {
    if |sorted| == 0 {
    } else if DateLe(o.date, sorted[0].date) {
      forall y | y in sorted ensures DateLe(o.date, y.date) {
        var k :| 0 <= k < |sorted| && sorted[k] == y;
        if k > 0 {
          DateLeTransitive(o.date, sorted[0].date, y.date);
        }
      }
      ConsSorted(o, sorted);
    } else {
      DateLeTotal(o.date, sorted[0].date);
      var rest := sorted[1..];
      assert SortedByDate(rest) by {
        forall i, j | 0 <= i < j < |rest| ensures DateLe(rest[i].date, rest[j].date) {
          assert rest[i] == sorted[i + 1] && rest[j] == sorted[j + 1];
        }
      }
      InsertByDateSorted(o, rest);
      forall y | y in InsertByDate(o, rest) ensures DateLe(sorted[0].date, y.date) {
        if y != o {
          var k :| 0 <= k < |rest| && rest[k] == y;
          assert sorted[k + 1] == y;
        }
      }
      ConsSorted(sorted[0], InsertByDate(o, rest));
    }
  }

  /** The sort yields the same overrides, ordered by date. */
  lemma {:induction false} SortByDateSorted(overrides: seq<ScheduleOverride>)
    ensures SortedByDate(SortByDate(overrides))
    ensures multiset(SortByDate(overrides)) == multiset(overrides)
  {
    if |overrides| > 0 {
      SortByDateSorted(overrides[1..]);
      InsertByDateSorted(overrides[0], SortByDate(overrides[1..]));
    }
  }

  /** Filtering keeps the relative order: it distributes over concatenation. */
  lemma {:induction false} WithoutDateConcat(a: seq<ScheduleOverride>, b: seq<ScheduleOverride>, date: string)
    ensures WithoutDate(a + b, date) == WithoutDate(a, date) + WithoutDate(b, date)
  {
    if |a| > 0 {
      assert (a + b)[0] == a[0];
      assert (a + b)[1..] == a[1..] + b;
      WithoutDateConcat(a[1..], b, date);
    } else {
      assert a + b == b;
    }
  }

  /** A list with no override for the date is left as it is. */
  lemma {:induction false} WithoutDateUnmatched(overrides: seq<ScheduleOverride>, date: string)
    requires forall k :: 0 <= k < |overrides| ==> overrides[k].date != date
    ensures WithoutDate(overrides, date) == overrides
  {
    if |overrides| > 0 {
      WithoutDateUnmatched(overrides[1..], date);
      assert overrides == [overrides[0]] + overrides[1..];
    }
  }

  /** Removing a date twice is removing it once. */
  lemma WithoutDateIdempotent(overrides: seq<ScheduleOverride>, date: string)
    ensures WithoutDate(WithoutDate(overrides, date), date) == WithoutDate(overrides, date)
  {
    WithoutDateUnmatched(WithoutDate(overrides, date), date);
  }

  /**
   * After an upsert exactly one override has the new date, it is the last
   * one, and before it stand the other overrides in their old order.
   */
  lemma UpsertedKeepsOthers(overrides: seq<ScheduleOverride>, o: ScheduleOverride)
    ensures var r := Upserted(overrides, o);
      && r[..|r| - 1] == WithoutDate(overrides, o.date)
      && (forall k :: 0 <= k < |r| && r[k].date == o.date ==> k == |r| - 1)
      && (forall x :: x in r <==> x == o || (x in overrides && x.date != o.date))
  {
    var r := Upserted(overrides, o);
    assert r[..|r| - 1] == WithoutDate(overrides, o.date);
  }

  // ---------------------------------------------------------------------
  // The dashboard's state and handlers
  // ---------------------------------------------------------------------

  class Dashboard {
    var pinOk: bool
    var pinInput: string
    var overrides: seq<ScheduleOverride>
    var selectedDate: string
    var overrideType: OverrideType
    var overrideMonth: MonthKey
    var overrideDay: DayKey

    /** The dashboard's initial state: locked, empty form, template for December day 1. */
    constructor ()
      ensures !pinOk && pinInput == "" && overrides == [] && selectedDate == ""
      ensures overrideType == Template && overrideMonth == December && overrideDay == Day1
    {
      pinOk := false;
      pinInput := "";
      overrides := [];
      selectedDate := "";
      overrideType := Template;
      overrideMonth := December;
      overrideDay := Day1;
    }

    /** The PIN button: the gate opens exactly when the input is the coach PIN; a wrong PIN changes nothing. */
    method SubmitPin()
      modifies this`pinOk
      ensures pinOk == (old(pinOk) || pinInput == CoachPin)
    {
      if pinInput == CoachPin {
        pinOk := true;
      }
    }

    /** `handleAddOverride`: with no date selected nothing happens; otherwise the form's override replaces any for that date. */
    method AddOverride()
      modifies this`overrides
      ensures selectedDate == "" ==> overrides == old(overrides)
      ensures selectedDate != "" ==>
        overrides == Upserted(old(overrides), NewOverride(selectedDate, overrideType, overrideMonth, overrideDay))
    {
      if selectedDate == "" {
        return;
      }
      overrides := WithoutDate(overrides, selectedDate)
        + [NewOverride(selectedDate, overrideType, overrideMonth, overrideDay)];
    }

    /** `handleRemoveOverride`: every override for the date goes, the others stay in order. */
    method RemoveOverride(date: string)
      modifies this`overrides
      ensures overrides == WithoutDate(old(overrides), date)
    {
      overrides := WithoutDate(overrides, date);
    }

    /** The list `handleGenerateExport` writes out (and the table shows): the overrides sorted by date. */
    method ExportOrder() returns (sorted: seq<ScheduleOverride>)
      ensures SortedByDate(sorted)
      ensures multiset(sorted) == multiset(overrides)
    {
      sorted := SortByDate(overrides);
      SortByDateSorted(overrides);
    }
  }
}
