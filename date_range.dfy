/**
 * The date-range picker shared by the two sprint sheets: a `{ from, to }`
 * selection whose ends may be unset, cleared when the calendar reports no
 * range, and complete only when both ends are chosen.
 */
module DateRanges {
  import opened Wrappers
  import opened Dates

  datatype DateRange = DateRange(from: Option<CalendarDate>, to: Option<CalendarDate>)

  /** `{ from: undefined, to: undefined }` */
  const Cleared: DateRange := DateRange(None, None)

  /** The calendar only offers real days. */
  predicate RangeValid(r: DateRange) {
    (r.from.Some? ==> ValidDate(r.from.value)) && (r.to.Some? ==> ValidDate(r.to.value))
  }

  /** The guard of both submit handlers: a range is usable only with both ends chosen. */
  predicate Complete(r: DateRange) {
    r.from.Some? && r.to.Some?
  }

  /** The calendar's `onSelect`: the range it reports, or a cleared range when it reports none. */
  function Selected(range: Option<DateRange>): (r: DateRange)
    ensures range.Some? ==> r == range.value
    ensures range.None? ==> r == Cleared && !Complete(r) && RangeValid(r)
  {
    match range
    case None => Cleared
    case Some(v) => v
  }
}
