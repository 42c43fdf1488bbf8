/**
 * The bug cards (components/bug-list.tsx): the status badge colour, which
 * actions a card offers, the payment link, marking a bug paid, deleting a
 * bug after confirmation, and the avatar fallback.
 */
module BugList {
  import opened Wrappers
  import opened Types
  import opened Store

  /** The badge colours: green, gray, and red for everything else. */
  datatype BadgeColour = Green | Gray | Red

  function StatusColour(status: Option<PenaltyStatus>): BadgeColour {
    match status
    case Some(Paid) => Green
    case Some(Waived) => Gray
    case _ => Red
  }

  /** Paid is green, waived is gray, and every other status (pending, or none) is red. */
  lemma StatusColourFacts(status: Option<PenaltyStatus>)
    ensures StatusColour(status) == Green <==> status == Some(Paid)
    ensures StatusColour(status) == Gray <==> status == Some(Waived)
    ensures StatusColour(status) == Red <==> status != Some(Paid) && status != Some(Waived)
  {
  }

  /** "Pay Now", "Mark as Paid" and the "Pay Penalty" button exist only for pending bugs. */
  predicate ShowsPendingActions(b: BugWithDetails) {
    b.bug.penalty_status == Some(Pending)
  }

  /** A card offering the payment actions has a red badge. */
  lemma PendingActionsAreRed(b: BugWithDetails)
    requires ShowsPendingActions(b)
    ensures StatusColour(b.bug.penalty_status) == Red
  {
  }

  datatype PayOutcome = OpenPaymentPage(url: string) | NoPaymentUrl

  /** `handlePay`: open the sprint's payment URL when it is set, report an error otherwise. */
  function HandlePay(b: BugWithDetails): (r: PayOutcome)
    ensures r.OpenPaymentPage? <==> b.sprint.Some? && Truthy(b.sprint.value.penalty_url)
    ensures r.OpenPaymentPage? ==> Some(r.url) == b.sprint.value.penalty_url && r.url != ""
  {
    if b.sprint.Some? && Truthy(b.sprint.value.penalty_url) then OpenPaymentPage(b.sprint.value.penalty_url.value)
    else NoPaymentUrl
  }

  /** The payload of "Mark as Paid": the status column only. */
  const MarkPaidPatch: BugPatch := BugPatch(Keep, Keep, Keep, Keep, Keep, Set(Some(Paid)), Keep)

  lemma MarkPaidWritesOnlyStatus(b: Bug)
    ensures PatchBug(b, MarkPaidPatch) == b.(penalty_status := Some(Paid))
  {
  }

  /** The avatar fallback: initials of the developer's name, nothing when no developer is joined. */
  function AvatarFallback(b: BugWithDetails): (r: Option<string>)
    ensures r.Some? <==> b.developer.Some?
    ensures r.Some? ==> r.value == Initials(b.developer.value.name)
  {
    match b.developer
    case None => None
    case Some(d) => Some(Initials(d.name))
  }

  /** `bugs.length === 0`: the list shows its empty-state message instead of cards. */
  function ShowsEmptyState(bugs: seq<BugWithDetails>): (r: bool)
    ensures r <==> bugs == []
  {
    |bugs| == 0
  }

  /** The list's dialog state: the bug being edited and the bug awaiting delete confirmation. */
  class BugListView {
    var editingBug: Option<BugWithDetails>
    var deletingBug: Option<BugWithDetails>

    constructor ()
      ensures editingBug.None? && deletingBug.None?
    {
      editingBug := None;
      deletingBug := None;
    }

    /** The card's "Delete" item: ask for confirmation. */
    method AskDelete(b: BugWithDetails)
      modifies this
      ensures deletingBug == Some(b) && editingBug == old(editingBug)
    {
      deletingBug := Some(b);
    }

    /**
     * The confirmed delete: nothing happens without a pending bug; otherwise
     * that bug's row is deleted (when the request succeeds) and the pending
     * state is cleared whatever the outcome.
     */
    method HandleDelete(db: Database, ok: bool)
      modifies this, db
      ensures old(deletingBug).None? ==> deletingBug.None? && unchanged(db)
      ensures old(deletingBug).Some? ==>
                db.bugs == (if ok then old(db.bugs) - {old(deletingBug).value.bug.id} else old(db.bugs))
      ensures db.developers == old(db.developers) && db.sprints == old(db.sprints) && db.users == old(db.users)
      ensures deletingBug.None? && editingBug == old(editingBug)
    {
      if deletingBug.None? {
        return;
      }
      var _ := db.DeleteBug(deletingBug.value.bug.id, ok);
      deletingBug := None;
    }
  }

  /** "Mark as Paid": only that bug's status changes, to paid. */
  method HandleMarkAsPaid(db: Database, b: BugWithDetails, ok: bool)
    modifies db
    ensures db.bugs == if ok && b.bug.id in old(db.bugs)
                       then old(db.bugs)[b.bug.id := old(db.bugs)[b.bug.id].(penalty_status := Some(Paid))]
                       else old(db.bugs)
    ensures db.developers == old(db.developers) && db.sprints == old(db.sprints) && db.users == old(db.users)
  {
    if b.bug.id in db.bugs {
      MarkPaidWritesOnlyStatus(db.bugs[b.bug.id]);
    }
    var _ := db.UpdateBug(b.bug.id, MarkPaidPatch, ok);
  }
}
