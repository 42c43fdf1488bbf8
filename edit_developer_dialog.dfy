/**
 * The "Edit Developer" sheet (components/edit-developer-dialog.tsx): name,
 * email and avatar link, prefilled from the developer and written back to
 * that developer's row only; the role is not on the form.
 */
module EditDeveloperDialog {
  import opened Wrappers
  import opened Types
  import opened Store

  datatype EditDeveloperForm = EditDeveloperForm(name: string, email: string, avatarUrl: string)

  /** The prefilled form, a null avatar link shown as "". */
  function Prefill(d: Developer): (f: EditDeveloperForm)
    ensures f.name == d.name && f.email == d.email && f.avatarUrl == EmptyIfNull(d.avatar_url)
  {
    EditDeveloperForm(d.name, d.email, EmptyIfNull(d.avatar_url))
  }

  /** The update payload: name, email and avatar link (empty as null); the role is left out. */
  function EditPatch(f: EditDeveloperForm): (p: DeveloperPatch)
    ensures p.name == Set(f.name) && p.email == Set(f.email) && p.role.Keep?
    ensures p.avatar_url.Set? && (p.avatar_url.value.None? <==> f.avatarUrl == "")
    ensures p.avatar_url.Set? && EmptyIfNull(p.avatar_url.value) == f.avatarUrl
  {
    DeveloperPatch(Set(f.name), Set(f.email), Set(NullIfEmpty(f.avatarUrl)), Keep)
  }

  /** A save keeps the developer's id, creation time and role, and the form reads back from the saved row. */
  lemma SaveKeepsRole(d: Developer, f: EditDeveloperForm)
    ensures var saved := PatchDeveloper(d, EditPatch(f));
            saved.id == d.id && saved.created_at == d.created_at && saved.role == d.role && Prefill(saved) == f
  {
  }

  /** An untouched save keeps the developer exactly unless the avatar link was "", which becomes null. */
  lemma UntouchedSave(d: Developer)
    ensures PatchDeveloper(d, EditPatch(Prefill(d))) == d.(avatar_url := NullIfEmpty(EmptyIfNull(d.avatar_url)))
    ensures PatchDeveloper(d, EditPatch(Prefill(d))) == d <==> d.avatar_url != Some("")
  {
    PrefillRoundTrip(d.avatar_url, "");
  }

  class EditDeveloperSheet {
    const developer: Developer
    var open: bool
    var loading: bool

    constructor (d: Developer, open0: bool)
      ensures developer == d && open == open0 && !loading
    {
      developer := d;
      open := open0;
      loading := false;
    }

    /** Submit: update this developer's row only; close on success; `loading` ends false. */
    method OnSubmit(db: Database, f: EditDeveloperForm, ok: bool)
      modifies this, db
      ensures db.developers == if ok && developer.id in old(db.developers)
                               then old(db.developers)[developer.id := PatchDeveloper(old(db.developers)[developer.id], EditPatch(f))]
                               else old(db.developers)
      ensures open == (old(open) && !ok) && !loading
      ensures db.sprints == old(db.sprints) && db.bugs == old(db.bugs) && db.users == old(db.users)
    {
      loading := true;
      var success := db.UpdateDeveloper(developer.id, EditPatch(f), ok);
      if success {
        open := false;
      }
      loading := false;
    }
  }
}
