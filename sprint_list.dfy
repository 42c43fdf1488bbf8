/**
 * The sprint cards (components/sprint-list.tsx): the Active / Completed /
 * Upcoming badge, the payment-URL dialog and deleting a sprint after
 * confirmation.
 *
 * The card compares the clock's instant with `new Date(start_date)` and
 * `new Date(end_date)`, which are midnight UTC of those days.  A sprint
 * therefore shows "Completed" from 00:00:00.001 UTC of its last day, while
 * the dashboard (which compares dates) still counts it as active that whole
 * day.  `BadgesAsWritten` is the card as written; `Badges` compares whole
 * days, as the dashboard does, and is what the rest of the model uses.
 */
module SprintList {
  import opened Wrappers
  import opened Types
  import opened Dates
  import opened Store
  import Dashboard

  datatype SprintBadge = Active | Completed | Upcoming

  /** `new Date(text)` for a stored date: midnight UTC, or `None` for an invalid date. */
  function MidnightOf(text: string): Option<int> {
    match ParseIsoDate(text)
    case None => None
    case Some(d) => Some(UtcMidnight(d))
  }

  /** The three badge conditions, each shown when it holds. */
  function BadgeList(isActive: bool, isPast: bool): seq<SprintBadge> {
    (if isActive then [Active] else []) + (if isPast then [Completed] else []) + (if !isActive && !isPast then [Upcoming] else [])
  }

  /**
   * The badges as written: active while `start <= now <= end` on instants,
   * past once `now > end`.  An invalid date compares false with everything.
   */
  function BadgesAsWritten(now: int, s: Sprint): (r: seq<SprintBadge>)
    ensures |r| == 1
    ensures r == [Active] <==>
              MidnightOf(s.start_date).Some? && MidnightOf(s.end_date).Some? &&
              MidnightOf(s.start_date).value <= now <= MidnightOf(s.end_date).value
    ensures r == [Completed] <==> MidnightOf(s.end_date).Some? && now > MidnightOf(s.end_date).value
  {
    var start, end := MidnightOf(s.start_date), MidnightOf(s.end_date);
    var isActive := start.Some? && end.Some? && now >= start.value && now <= end.value;
    var isPast := end.Some? && now > end.value;
    BadgeListFacts(isActive, isPast);
    BadgeList(isActive, isPast)
  }

  /** The badges compared by day: active while `start <= today <= end`, past once `today > end`. */
  function Badges(today: CalendarDate, s: Sprint): (r: seq<SprintBadge>)
    ensures |r| == 1
    ensures r == [Active] <==>
              ParseIsoDate(s.start_date).Some? && ParseIsoDate(s.end_date).Some? &&
              DateAtMost(ParseIsoDate(s.start_date).value, today) && DateAtMost(today, ParseIsoDate(s.end_date).value)
    ensures r == [Completed] <==> ParseIsoDate(s.end_date).Some? && DateLess(ParseIsoDate(s.end_date).value, today)
  {
    var start, end := ParseIsoDate(s.start_date), ParseIsoDate(s.end_date);
    var isActive := start.Some? && end.Some? && DateAtMost(start.value, today) && DateAtMost(today, end.value);
    var isPast := end.Some? && DateLess(end.value, today);
    BadgeListFacts(isActive, isPast);
    BadgeList(isActive, isPast)
  }

  lemma BadgeListFacts(isActive: bool, isPast: bool)
    requires !(isActive && isPast)
    ensures |BadgeList(isActive, isPast)| == 1
    ensures BadgeList(isActive, isPast) == [Active] <==> isActive
    ensures BadgeList(isActive, isPast) == [Completed] <==> isPast
    ensures BadgeList(isActive, isPast) == [Upcoming] <==> !isActive && !isPast
  {
    var r := BadgeList(isActive, isPast);
    if isActive {
      assert r == [Active];
    } else if isPast {
      assert r == [Completed];
    } else {
      assert r == [Upcoming];
    }
    assert r[0] == Active <==> isActive;
  }

  /** Every card shows exactly one badge, both as written and by day. */
  lemma ExactlyOneBadge(now: int, today: CalendarDate, s: Sprint)
    ensures |BadgesAsWritten(now, s)| == 1
    ensures |Badges(today, s)| == 1
  {
    var start, end := MidnightOf(s.start_date), MidnightOf(s.end_date);
    BadgeListFacts(start.Some? && end.Some? && now >= start.value && now <= end.value, end.Some? && now > end.value);
    var ds, de := ParseIsoDate(s.start_date), ParseIsoDate(s.end_date);
    BadgeListFacts(ds.Some? && de.Some? && DateAtMost(ds.value, today) && DateAtMost(today, de.value),
                   de.Some? && DateLess(de.value, today));
  }

  /** By day, a card is "Active" exactly when the dashboard counts the sprint as active, and "Completed" once its end date is past. */
  lemma BadgesAgreeWithDashboard(today: CalendarDate, s: Sprint)
    ensures Badges(today, s) == [Active] <==> Dashboard.ActiveOn(today, s)
    ensures Badges(today, s) == [Completed] <==>
              ParseIsoDate(s.end_date).Some? && DateLess(ParseIsoDate(s.end_date).value, today)
  {
    var ds, de := ParseIsoDate(s.start_date), ParseIsoDate(s.end_date);
    var isActive := ds.Some? && de.Some? && DateAtMost(ds.value, today) && DateAtMost(today, de.value);
    var isPast := de.Some? && DateLess(de.value, today);
    BadgeListFacts(isActive, isPast);
    assert Dashboard.ActiveOn(today, s) <==> isActive;
  }

  /**
   * Within the UTC day `today`, the card as written and the card by day
   * disagree exactly when the sprint ends today and the clock is past
   * midnight: the card as written then says "Completed".
   */
  lemma AsWrittenDiffersOnlyOnLastDay(now: int, today: CalendarDate, s: Sprint)
    requires ValidDate(today) && InUtcDay(now, today)
    ensures BadgesAsWritten(now, s) != Badges(today, s) <==>
              ParseIsoDate(s.end_date) == Some(today) && now > UtcMidnight(today)
    ensures ParseIsoDate(s.end_date) == Some(today) && now > UtcMidnight(today) ==>
              BadgesAsWritten(now, s) == [Completed]
  {
    var start, end := MidnightOf(s.start_date), MidnightOf(s.end_date);
    var ds, de := ParseIsoDate(s.start_date), ParseIsoDate(s.end_date);
    var wActive := start.Some? && end.Some? && now >= start.value && now <= end.value;
    var wPast := end.Some? && now > end.value;
    var dActive := ds.Some? && de.Some? && DateAtMost(ds.value, today) && DateAtMost(today, de.value);
    var dPast := de.Some? && DateLess(de.value, today);
    BadgeListFacts(wActive, wPast);
    BadgeListFacts(dActive, dPast);
    var lastDay := de == Some(today) && now > UtcMidnight(today);
    if ds.Some? {
      InstantVersusMidnight(now, today, ds.value);
    }
    if de.Some? {
      InstantVersusMidnight(now, today, de.value);
      EpochDayOrder(de.value, today);
      assert wPast <==> dPast || lastDay;
      assert (now <= end.value) <==> DateAtMost(today, de.value) && !lastDay;
    }
    assert wActive <==> dActive && !lastDay;
    assert wPast <==> dPast || lastDay;
  }

  /**
   * The input that shows it: a sprint from 2024-06-01 to 2024-06-14, seen at
   * 10:00 UTC on 2024-06-14, is "Completed" on its card while the dashboard
   * counts it as active.
   */
  lemma LastDayShownCompleted()
    ensures var s := Sprint("s1", "Sprint 24", "2024-06-01", "2024-06-14", None, "2024-05-31T09:00:00Z");
            var today := CalendarDate(2024, 6, 14);
            var now := UtcMidnight(today) + 10 * MsPerHour;
            InUtcDay(now, today) && BadgesAsWritten(now, s) == [Completed] &&
            Badges(today, s) == [Active] && Dashboard.ActiveOn(today, s)
  {
    var s := Sprint("s1", "Sprint 24", "2024-06-01", "2024-06-14", None, "2024-05-31T09:00:00Z");
    var first, today := CalendarDate(2024, 6, 1), CalendarDate(2024, 6, 14);
    assert FormatIsoDate(first) == "2024-06-01";
    assert FormatIsoDate(today) == "2024-06-14";
    ParseFormat(first);
    ParseFormat(today);
    var now := UtcMidnight(today) + 10 * MsPerHour;
    AsWrittenDiffersOnlyOnLastDay(now, today, s);
    BadgesAgreeWithDashboard(today, s);
  }

  // ---------------------------------------------------------------------
  // Dialog state and handlers

  /** The payload of "Save" in the payment-URL dialog: that column only, empty text as null. */
  function PenaltyUrlPatch(url: string): (p: SprintPatch)
    ensures p.name.Keep? && p.start_date.Keep? && p.end_date.Keep?
    ensures p.penalty_url == Set(NullIfEmpty(url))
  {
    SprintPatch(Keep, Keep, Keep, Set(NullIfEmpty(url)))
  }

  /** Opening the dialog and saving it untouched keeps the sprint as it was (an empty URL becomes null). */
  lemma UntouchedUrlRoundTrip(s: Sprint)
    ensures PatchSprint(s, PenaltyUrlPatch(EmptyIfNull(s.penalty_url))) ==
            s.(penalty_url := if s.penalty_url == Some("") then None else s.penalty_url)
  {
    PrefillRoundTrip(s.penalty_url, "");
  }

  /** `sprints.length === 0`: the list shows its empty-state message instead of cards. */
  function ShowsEmptyState(sprints: seq<Sprint>): (r: bool)
    ensures r <==> sprints == []
  {
    |sprints| == 0
  }

  class SprintListView {
    var editingSprint: Option<Sprint>
    var deletingSprint: Option<Sprint>
    var penaltyUrlSprint: Option<Sprint>
    var penaltyUrl: string

    constructor ()
      ensures editingSprint.None? && deletingSprint.None? && penaltyUrlSprint.None? && penaltyUrl == ""
    {
      editingSprint := None;
      deletingSprint := None;
      penaltyUrlSprint := None;
      penaltyUrl := "";
    }

    /** "Set Penalty URL": open the dialog prefilled with the sprint's URL or "". */
    method OpenPenaltyUrl(s: Sprint)
      modifies this
      ensures penaltyUrlSprint == Some(s) && penaltyUrl == EmptyIfNull(s.penalty_url)
      ensures editingSprint == old(editingSprint) && deletingSprint == old(deletingSprint)
    {
      penaltyUrlSprint := Some(s);
      penaltyUrl := EmptyIfNull(s.penalty_url);
    }

    method AskDelete(s: Sprint)
      modifies this
      ensures deletingSprint == Some(s)
      ensures editingSprint == old(editingSprint) && penaltyUrlSprint == old(penaltyUrlSprint) && penaltyUrl == old(penaltyUrl)
    {
      deletingSprint := Some(s);
    }

    /**
     * Save the URL: only that sprint's `penalty_url` is written; on success
     * the dialog closes and its text is cleared, on failure it stays as it was.
     */
    method HandleSavePenaltyUrl(db: Database, ok: bool)
      modifies this, db
      ensures old(penaltyUrlSprint).None? ==> unchanged(this) && unchanged(db)
      ensures old(penaltyUrlSprint).Some? ==>
                var id := old(penaltyUrlSprint).value.id;
                db.sprints == (if ok && id in old(db.sprints)
                               then old(db.sprints)[id := old(db.sprints)[id].(penalty_url := NullIfEmpty(old(penaltyUrl)))]
                               else old(db.sprints)) &&
                (if ok then penaltyUrlSprint.None? && penaltyUrl == ""
                 else penaltyUrlSprint == old(penaltyUrlSprint) && penaltyUrl == old(penaltyUrl))
      ensures db.developers == old(db.developers) && db.bugs == old(db.bugs) && db.users == old(db.users)
      ensures editingSprint == old(editingSprint) && deletingSprint == old(deletingSprint)
    {
      if penaltyUrlSprint.None? {
        return;
      }
      var success := db.UpdateSprint(penaltyUrlSprint.value.id, PenaltyUrlPatch(penaltyUrl), ok);
      if success {
        penaltyUrlSprint := None;
        penaltyUrl := "";
      }
    }

    /**
   * The confirmed delete: a no-op without a pending sprint, otherwise delete
   * it, with its bugs as the database's rule for them says, and clear the
   * pending state.
   */
    method HandleDelete(db: Database, ok: bool, rule: OnDelete)
      modifies this, db
      ensures old(deletingSprint).None? ==> unchanged(db)
      ensures old(deletingSprint).Some? ==>
                var id := old(deletingSprint).value.id;
                db.sprints == (if ok then old(db.sprints) - {id} else old(db.sprints)) &&
                db.bugs == (if ok then BugsAfterDelete(old(db.bugs), SprintRef, id, rule) else old(db.bugs))
      ensures db.developers == old(db.developers) && db.users == old(db.users)
      ensures deletingSprint.None?
      ensures editingSprint == old(editingSprint) && penaltyUrlSprint == old(penaltyUrlSprint) && penaltyUrl == old(penaltyUrl)
    {
      if deletingSprint.None? {
        return;
      }
      var _ := db.DeleteSprint(deletingSprint.value.id, ok, rule);
      deletingSprint := None;
    }
  }
}
