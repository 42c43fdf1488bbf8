/**
 * The "Edit Sprint" sheet (components/edit-sprint-dialog.tsx): the name and
 * the date range start from the sprint; submit refuses an incomplete range,
 * otherwise writes the name and both dates of that sprint and leaves its
 * payment URL alone.
 *
 * As written, the initial range is `new Date(start_date)` and
 * `new Date(end_date)`: midnight UTC of each stored day.  The calendar and
 * `format` read a `Date` in the browser's time zone, so west of Greenwich
 * both ends show, and an untouched save writes, the day before the stored
 * one.  `InitialRangeAsWritten` is that range, and the sheet's `AsWritten`
 * constructor starts from it; `InitialRange`, the stored days themselves,
 * is what the sheet's plain constructor starts from.
 */
module EditSprintDialog {
  import opened Wrappers
  import opened Types
  import opened Dates
  import opened DateRanges
  import opened Store

  /** A stored date as the calendar shows `new Date(text)` in a zone `offset` ms east of UTC. */
  function LocalDayOfStored(text: string, offset: int): (r: Option<CalendarDate>)
    requires ParseIsoDate(text) != Some(CalendarDate(0, 1, 1)) && -MsPerDay < offset < MsPerDay
    ensures r.Some? <==> ParseIsoDate(text).Some?
    ensures r.Some? ==> ValidDate(r.value) && InUtcDay(UtcMidnight(ParseIsoDate(text).value) + offset, r.value)
  {
    match ParseIsoDate(text)
    case None => None
    case Some(d) => Some(LocalDayOfMidnight(d, offset))
  }

  /** The initial range as written. */
  function InitialRangeAsWritten(s: Sprint, offset: int): (r: DateRange)
    requires ParseIsoDate(s.start_date) != Some(CalendarDate(0, 1, 1))
    requires ParseIsoDate(s.end_date) != Some(CalendarDate(0, 1, 1))
    requires -MsPerDay < offset < MsPerDay
    ensures RangeValid(r)
  {
    DateRange(LocalDayOfStored(s.start_date, offset), LocalDayOfStored(s.end_date, offset))
  }

  lemma FormatsBack(text: string)
    ensures ParseIsoDate(text).Some? ==> FormatIsoDate(ParseIsoDate(text).value) == text
  {
    if ParseIsoDate(text).Some? {
      FormatParse(text);
    }
  }

  /** The initial range: the sprint's stored days, each of which formats back to the stored text. */
  function InitialRange(s: Sprint): (r: DateRange)
    ensures RangeValid(r)
    ensures r.from.Some? <==> ParseIsoDate(s.start_date).Some?
    ensures r.to.Some? <==> ParseIsoDate(s.end_date).Some?
    ensures r.from.Some? ==> FormatIsoDate(r.from.value) == s.start_date
    ensures r.to.Some? ==> FormatIsoDate(r.to.value) == s.end_date
  {
    FormatsBack(s.start_date);
    FormatsBack(s.end_date);
    DateRange(ParseIsoDate(s.start_date), ParseIsoDate(s.end_date))
  }

  /** The update payload: the name and the two dates, each reading back as the chosen day; `penalty_url` is left out. */
  function EditPatch(name: string, range: DateRange): (p: SprintPatch)
    requires Complete(range) && RangeValid(range)
    ensures p.name == Set(name) && p.penalty_url.Keep?
    ensures p.start_date.Set? && ParseIsoDate(p.start_date.value) == range.from
    ensures p.end_date.Set? && ParseIsoDate(p.end_date.value) == range.to
  {
    ParseFormat(range.from.value);
    ParseFormat(range.to.value);
    SprintPatch(Set(name), Set(FormatIsoDate(range.from.value)), Set(FormatIsoDate(range.to.value)), Keep)
  }

  /** Saving the sheet untouched gives back the sprint unchanged. */
  lemma UntouchedSaveKeepsSprint(s: Sprint)
    requires Complete(InitialRange(s))
    ensures PatchSprint(s, EditPatch(s.name, InitialRange(s))) == s
  {
  }

  /**
   * As written, an untouched save keeps the dates at or east of Greenwich
   * and moves both back one day west of it.
   */
  lemma UntouchedSaveAsWritten(s: Sprint, offset: int)
    requires ParseIsoDate(s.start_date).Some? && ParseIsoDate(s.end_date).Some?
    requires ParseIsoDate(s.start_date) != Some(CalendarDate(0, 1, 1))
    requires ParseIsoDate(s.end_date) != Some(CalendarDate(0, 1, 1))
    requires -MsPerDay < offset < MsPerDay
    ensures var saved := PatchSprint(s, EditPatch(s.name, InitialRangeAsWritten(s, offset)));
            (offset >= 0 ==> saved == s) &&
            (offset < 0 ==> saved.start_date != s.start_date && saved.end_date != s.end_date &&
                            ParseIsoDate(saved.start_date) == Some(PreviousDay(ParseIsoDate(s.start_date).value)) &&
                            ParseIsoDate(saved.end_date) == Some(PreviousDay(ParseIsoDate(s.end_date).value)))
  {
    var start, end := ParseIsoDate(s.start_date).value, ParseIsoDate(s.end_date).value;
    FormatParse(s.start_date);
    FormatParse(s.end_date);
    if offset < 0 {
      PreviousDayIsDayBefore(start);
      PreviousDayIsDayBefore(end);
      ParseFormat(PreviousDay(start));
      ParseFormat(PreviousDay(end));
    }
  }

  /** A sprint of 1-14 June 2024 opened and saved untouched at UTC-5 is stored as 31 May - 13 June. */
  lemma WestOfGreenwichShiftsSprint()
    ensures var s := Sprint("s1", "Sprint 24", "2024-06-01", "2024-06-14", None, "2024-05-31T09:00:00Z");
            ParseIsoDate(s.start_date) == Some(CalendarDate(2024, 6, 1)) &&
            ParseIsoDate(s.end_date) == Some(CalendarDate(2024, 6, 14)) &&
            var saved := PatchSprint(s, EditPatch(s.name, InitialRangeAsWritten(s, -5 * MsPerHour)));
            saved.start_date == "2024-05-31" && saved.end_date == "2024-06-13"
  {
    var s := Sprint("s1", "Sprint 24", "2024-06-01", "2024-06-14", None, "2024-05-31T09:00:00Z");
    var first, last := CalendarDate(2024, 6, 1), CalendarDate(2024, 6, 14);
    assert FormatIsoDate(first) == "2024-06-01";
    assert FormatIsoDate(last) == "2024-06-14";
    ParseFormat(first);
    ParseFormat(last);
    var r := InitialRangeAsWritten(s, -5 * MsPerHour);
    assert r.from == Some(PreviousDay(first));
    assert r.to == Some(PreviousDay(last));
    assert PreviousDay(first) == CalendarDate(2024, 5, 31);
    assert PreviousDay(last) == CalendarDate(2024, 6, 13);
    assert FormatIsoDate(CalendarDate(2024, 5, 31)) == "2024-05-31";
    assert FormatIsoDate(CalendarDate(2024, 6, 13)) == "2024-06-13";
  }

  class EditSprintSheet {
    const sprint: Sprint
    var open: bool
    var loading: bool
    var range: DateRange

    ghost predicate Valid()
      reads this
    {
      RangeValid(range)
    }

    /** The sheet for `s`, its openness controlled by the list. */
    constructor (s: Sprint, open0: bool)
      ensures Valid() && sprint == s && open == open0 && !loading && range == InitialRange(s)
    {
      sprint := s;
      open := open0;
      loading := false;
      range := InitialRange(s);
    }

    /**
     * The sheet for `s` as written: each end starts from `new Date(stored)`,
     * that is midnight UTC of the stored day, read in a browser `offset` ms
     * east of UTC.
     */
    constructor AsWritten(s: Sprint, open0: bool, offset: int)
      requires ParseIsoDate(s.start_date) != Some(CalendarDate(0, 1, 1))
      requires ParseIsoDate(s.end_date) != Some(CalendarDate(0, 1, 1))
      requires -MsPerDay < offset < MsPerDay
      ensures Valid() && sprint == s && open == open0 && !loading && range == InitialRangeAsWritten(s, offset)
    {
      sprint := s;
      open := open0;
      loading := false;
      range := InitialRangeAsWritten(s, offset);
    }

    /** The calendar's `onSelect`. */
    method Select(picked: Option<DateRange>)
      requires picked.Some? ==> RangeValid(picked.value)
      modifies this
      ensures Valid() && range == Selected(picked)
      ensures open == old(open) && loading == old(loading)
    {
      range := Selected(picked);
    }

    /**
     * Submit.  Without both ends nothing happens.  Otherwise only this
     * sprint's row is updated; the sheet closes only on success, and
     * `loading` ends false.
     */
    method OnSubmit(db: Database, name: string, ok: bool)
      requires Valid()
      modifies this, db
      ensures Valid() && range == old(range)
      ensures !Complete(old(range)) ==> unchanged(this) && unchanged(db)
      ensures Complete(old(range)) ==>
                db.sprints == (if ok && sprint.id in old(db.sprints)
                               then old(db.sprints)[sprint.id := PatchSprint(old(db.sprints)[sprint.id], EditPatch(name, old(range)))]
                               else old(db.sprints)) &&
                !loading && open == (old(open) && !ok)
      ensures db.developers == old(db.developers) && db.bugs == old(db.bugs) && db.users == old(db.users)
    {
      if !Complete(range) {
        return;
      }
      loading := true;
      var success := db.UpdateSprint(sprint.id, EditPatch(name, range), ok);
      if success {
        open := false;
      }
      loading := false;
    }
  }
}
