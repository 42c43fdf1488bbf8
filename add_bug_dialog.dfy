/**
 * The "Record Bug" dialog (components/add-bug-dialog.tsx): the submitted
 * fields become a new bug row, always pending, with an empty image link
 * stored as null; the dialog closes only when the insert succeeds.
 */
module AddBugDialog {
  import opened Wrappers
  import opened Types
  import opened Store
  import BugList

  /** The submitted form: every field as text, the penalty already read as a number. */
  datatype AddBugForm = AddBugForm(
    title: string,
    description: string,
    penaltyAmount: int,
    developerId: Id,
    sprintId: Id,
    imageUrl: string)

  /**
   * The inserted row.  The form's fields are copied, the status is always
   * pending, and the image link is present exactly when the field was not
   * empty, reading back as that field.
   */
  function NewBug(f: AddBugForm, id: Id, createdAt: string): (b: Bug)
    ensures b.id == id && b.title == f.title && b.description == Some(f.description)
    ensures b.developer_id == Some(f.developerId) && b.sprint_id == Some(f.sprintId)
    ensures b.penalty_amount == Some(f.penaltyAmount) && b.penalty_status == Some(Pending)
    ensures b.image_url.Some? <==> f.imageUrl != ""
    ensures EmptyIfNull(b.image_url) == f.imageUrl
  {
    Bug(id, f.title, Some(f.description), Some(f.sprintId), Some(f.developerId),
        Some(f.penaltyAmount), Some(Pending), NullIfEmpty(f.imageUrl), createdAt)
  }

  /** A freshly recorded bug offers the payment actions under a red badge, and counts its penalty in full. */
  lemma NewBugIsOutstanding(f: AddBugForm, id: Id, createdAt: string, dev: Option<Developer>, sprint: Option<Sprint>)
    ensures var b := BugWithDetails(NewBug(f, id, createdAt), dev, sprint);
            BugList.ShowsPendingActions(b) && BugList.StatusColour(b.bug.penalty_status) == BugList.Red &&
            BugAmount(b) == f.penaltyAmount
  {
    var b := BugWithDetails(NewBug(f, id, createdAt), dev, sprint);
    BugList.PendingActionsAreRed(b);
  }

  class AddBugDialogState {
    var open: bool
    var loading: bool

    constructor ()
      ensures !open && !loading
    {
      open := false;
      loading := false;
    }

    method SetOpen(value: bool)
      modifies this
      ensures open == value && loading == old(loading)
    {
      open := value;
    }

    /**
     * Submit: insert the new bug under the id the database gives it.  The
     * dialog closes on success and stays as it was on failure; `loading`
     * ends false either way.
     */
    method OnSubmit(db: Database, f: AddBugForm, id: Id, createdAt: string, ok: bool)
      modifies this, db
      ensures var success := ok && id !in old(db.bugs);
              db.bugs == (if success then old(db.bugs)[id := NewBug(f, id, createdAt)] else old(db.bugs)) &&
              open == (old(open) && !success)
      ensures !loading
      ensures db.developers == old(db.developers) && db.sprints == old(db.sprints) && db.users == old(db.users)
    {
      loading := true;
      var success := db.InsertBug(NewBug(f, id, createdAt), ok);
      if success {
        open := false;
      }
      loading := false;
    }
  }
}
