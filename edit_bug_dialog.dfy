/**
 * The "Edit Bug" dialog (components/edit-bug-dialog.tsx): the form starts
 * from the bug, and saving overwrites its seven editable columns, keyed by
 * the bug's id; the dialog closes only when the update succeeds.
 */
module EditBugDialog {
  import opened Wrappers
  import opened Types
  import opened Store

  /** The submitted form: each field as the browser sends it, the penalty read as a number. */
  datatype EditBugForm = EditBugForm(
    title: string,
    description: string,
    penaltyAmount: int,
    developerId: Id,
    sprintId: Id,
    status: PenaltyStatus,
    imageUrl: string)

  /**
   * The form prefilled from the bug, null description and image shown as
   * "".  The selects and the penalty are required fields, so a form is
   * only submitted untouched when the bug has all four.
   */
  function Prefill(b: Bug): (f: EditBugForm)
    requires b.developer_id.Some? && b.sprint_id.Some? && b.penalty_amount.Some? && b.penalty_status.Some?
    ensures f.title == b.title && f.description == EmptyIfNull(b.description) && f.imageUrl == EmptyIfNull(b.image_url)
    ensures Some(f.developerId) == b.developer_id && Some(f.sprintId) == b.sprint_id
    ensures Some(f.penaltyAmount) == b.penalty_amount && Some(f.status) == b.penalty_status
  {
    EditBugForm(b.title, EmptyIfNull(b.description), b.penalty_amount.value, b.developer_id.value,
                b.sprint_id.value, b.penalty_status.value, EmptyIfNull(b.image_url))
  }

  /** The update payload: all seven editable columns, an empty image link as null. */
  function EditPatch(f: EditBugForm): (p: BugPatch)
    ensures p.title.Set? && p.description.Set? && p.sprint_id.Set? && p.developer_id.Set?
    ensures p.penalty_amount.Set? && p.penalty_status.Set? && p.image_url.Set?
    ensures p.penalty_status.value == Some(f.status) && p.description.value == Some(f.description)
    ensures p.image_url.value.None? <==> f.imageUrl == ""
    ensures EmptyIfNull(p.image_url.value) == f.imageUrl
  {
    BugPatch(Set(f.title), Set(Some(f.description)), Set(Some(f.sprintId)), Set(Some(f.developerId)),
             Set(Some(f.penaltyAmount)), Set(Some(f.status)), Set(NullIfEmpty(f.imageUrl)))
  }

  /** Whatever the bug held, the saved bug holds the form: the update is a function of the form alone. */
  lemma SaveOverwritesEditableColumns(b: Bug, c: Bug, f: EditBugForm)
    requires b.id == c.id && b.created_at == c.created_at
    ensures PatchBug(b, EditPatch(f)) == PatchBug(c, EditPatch(f))
    ensures Prefill(PatchBug(b, EditPatch(f))) == f
  {
  }

  /**
   * Saving the prefilled form untouched keeps the bug, except that a null
   * description comes back as "" and an empty image link as null; so it
   * keeps the bug exactly when neither of those is the case.
   */
  lemma UntouchedSave(b: Bug)
    requires b.developer_id.Some? && b.sprint_id.Some? && b.penalty_amount.Some? && b.penalty_status.Some?
    ensures PatchBug(b, EditPatch(Prefill(b))) ==
            b.(description := Some(EmptyIfNull(b.description)), image_url := NullIfEmpty(EmptyIfNull(b.image_url)))
    ensures PatchBug(b, EditPatch(Prefill(b))) == b <==> b.description.Some? && b.image_url != Some("")
  {
    PrefillRoundTrip(b.image_url, "");
    if b.description.None? {
      assert PatchBug(b, EditPatch(Prefill(b))).description != b.description;
    }
  }

  class EditBugDialogState {
    const bug: Bug
    var open: bool
    var loading: bool

    /** The dialog for `b`, its openness controlled by the list. */
    constructor (b: Bug, open0: bool)
      ensures bug == b && open == open0 && !loading
    {
      bug := b;
      open := open0;
      loading := false;
    }

    /**
     * Submit: update the row with this bug's id and no other.  The dialog
     * closes only on success; `loading` ends false.
     */
    method OnSubmit(db: Database, f: EditBugForm, ok: bool)
      modifies this, db
      ensures db.bugs == if ok && bug.id in old(db.bugs)
                         then old(db.bugs)[bug.id := PatchBug(old(db.bugs)[bug.id], EditPatch(f))]
                         else old(db.bugs)
      ensures open == (old(open) && !ok) && !loading
      ensures db.developers == old(db.developers) && db.sprints == old(db.sprints) && db.users == old(db.users)
    {
      loading := true;
      var success := db.UpdateBug(bug.id, EditPatch(f), ok);
      if success {
        open := false;
      }
      loading := false;
    }
  }
}
