/**
 * The "Create Sprint" sheet (components/add-sprint-dialog.tsx): a name and
 * a date range; submit refuses an incomplete range, otherwise inserts the
 * sprint with both dates as `yyyy-MM-dd`, and on success closes the sheet
 * and clears the range.
 */
module AddSprintDialog {
  import opened Wrappers
  import opened Types
  import opened Dates
  import opened DateRanges
  import opened Store
  import SprintList

  /**
   * The inserted row: the name and the two dates only, so no payment URL.
   * Each stored date reads back as the chosen day.
   */
  function NewSprint(name: string, range: DateRange, id: Id, createdAt: string): (s: Sprint)
    requires Complete(range) && RangeValid(range)
    ensures s.id == id && s.name == name && s.penalty_url.None?
    ensures ParseIsoDate(s.start_date) == range.from && ParseIsoDate(s.end_date) == range.to
    ensures IsoShaped(s.start_date) && IsoShaped(s.end_date)
  {
    ParseFormat(range.from.value);
    ParseFormat(range.to.value);
    Sprint(id, name, FormatIsoDate(range.from.value), FormatIsoDate(range.to.value), None, createdAt)
  }

  /**
   * Compared by day (the corrected card), a sprint created with a range
   * containing today is shown as active, and one that ended before today as
   * completed.
   */
  lemma NewSprintBadge(name: string, range: DateRange, id: Id, createdAt: string, today: CalendarDate)
    requires Complete(range) && RangeValid(range)
    ensures var s := NewSprint(name, range, id, createdAt);
            (SprintList.Badges(today, s) == [SprintList.Active] <==>
               DateAtMost(range.from.value, today) && DateAtMost(today, range.to.value)) &&
            (SprintList.Badges(today, s) == [SprintList.Completed] <==> DateLess(range.to.value, today))
  {
    var s := NewSprint(name, range, id, createdAt);
    var isActive := DateAtMost(range.from.value, today) && DateAtMost(today, range.to.value);
    var isPast := DateLess(range.to.value, today);
    assert SprintList.Badges(today, s) == SprintList.BadgeList(isActive, isPast);
    SprintList.BadgeListFacts(isActive, isPast);
  }

  /**
   * On the card as written, a created sprint is active from midnight UTC of
   * its first day up to and including midnight UTC of its last day, and
   * completed after that instant.
   */
  lemma NewSprintBadgeAsWritten(name: string, range: DateRange, id: Id, createdAt: string, now: int)
    requires Complete(range) && RangeValid(range)
    ensures var s := NewSprint(name, range, id, createdAt);
            (SprintList.BadgesAsWritten(now, s) == [SprintList.Active] <==>
               UtcMidnight(range.from.value) <= now <= UtcMidnight(range.to.value)) &&
            (SprintList.BadgesAsWritten(now, s) == [SprintList.Completed] <==> now > UtcMidnight(range.to.value))
  {
    var s := NewSprint(name, range, id, createdAt);
    var start, end := UtcMidnight(range.from.value), UtcMidnight(range.to.value);
    assert SprintList.MidnightOf(s.start_date) == Some(start);
    assert SprintList.MidnightOf(s.end_date) == Some(end);
    assert SprintList.BadgesAsWritten(now, s) == SprintList.BadgeList(start <= now <= end, now > end);
    SprintList.BadgeListFacts(start <= now <= end, now > end);
  }

  class AddSprintSheet {
    var open: bool
    var loading: bool
    var range: DateRange

    ghost predicate Valid()
      reads this
    {
      RangeValid(range)
    }

    constructor ()
      ensures Valid() && !open && !loading && range == Cleared
    {
      open := false;
      loading := false;
      range := Cleared;
    }

    /** The trigger button and the sheet's own close control. */
    method SetOpen(value: bool)
      modifies this
      ensures open == value && loading == old(loading) && range == old(range)
    {
      open := value;
    }

    /** The calendar's `onSelect`. */
    method Select(picked: Option<DateRange>)
      requires picked.Some? ==> RangeValid(picked.value)
      modifies this
      ensures Valid() && range == Selected(picked)
      ensures open == old(open) && loading == old(loading)
    {
      range := Selected(picked);
    }

    /**
     * Submit.  Without both ends nothing happens, not even `loading`.
     * Otherwise the sprint is inserted under the id the database gives it;
     * on success the sheet closes and the range is cleared, on failure both
     * stay; `loading` ends false either way.
     */
    method OnSubmit(db: Database, name: string, id: Id, createdAt: string, ok: bool)
      requires Valid()
      modifies this, db
      ensures Valid()
      ensures !Complete(old(range)) ==> unchanged(this) && unchanged(db)
      ensures Complete(old(range)) ==>
                var success := ok && id !in old(db.sprints);
                db.sprints == (if success then old(db.sprints)[id := NewSprint(name, old(range), id, createdAt)] else old(db.sprints)) &&
                !loading &&
                (if success then !open && range == Cleared else open == old(open) && range == old(range))
      ensures db.developers == old(db.developers) && db.bugs == old(db.bugs) && db.users == old(db.users)
    {
      if !Complete(range) {
        return;
      }
      loading := true;
      var success := db.InsertSprint(NewSprint(name, range, id, createdAt), ok);
      if success {
        open := false;
        range := Cleared;
      }
      loading := false;
    }
  }
}
