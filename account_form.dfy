/**
 * The profile form (components/account-form.tsx): the signed-in
 * developer edits their name and avatar link; the email is shown but not
 * editable, and a badge marks a super administrator.
 */
module AccountForm {
  import opened Wrappers
  import opened Types
  import opened Store

  /** The "Super Admin" badge is shown exactly for the role "super_admin". */
  function IsSuperAdmin(d: Developer): (r: bool)
    ensures r <==> d.role.Some? && d.role.value == "super_admin"
  {
    d.role == Some("super_admin")
  }

  /** The save payload: name and avatar link (empty as null) only. */
  function SavePatch(name: string, avatarUrl: string): (p: DeveloperPatch)
    ensures p.name == Set(name) && p.email.Keep? && p.role.Keep?
    ensures p.avatar_url.Set? && (p.avatar_url.value.None? <==> avatarUrl == "")
    ensures p.avatar_url.Set? && EmptyIfNull(p.avatar_url.value) == avatarUrl
  {
    DeveloperPatch(Set(name), Keep, Set(NullIfEmpty(avatarUrl)), Keep)
  }

  /** Saving the profile never changes the email or the role, so it cannot grant or take away the badge. */
  lemma SaveKeepsEmailAndRole(d: Developer, name: string, avatarUrl: string)
    ensures var saved := PatchDeveloper(d, SavePatch(name, avatarUrl));
            saved.email == d.email && saved.role == d.role && saved.id == d.id &&
            (IsSuperAdmin(saved) <==> IsSuperAdmin(d)) &&
            saved.name == name && EmptyIfNull(saved.avatar_url) == avatarUrl
  {
  }

  class AccountFormState {
    const developer: Developer
    var name: string
    var avatarUrl: string
    var loading: bool

    /** The form starts from the developer, a null avatar link shown as "". */
    constructor (d: Developer)
      ensures developer == d && name == d.name && avatarUrl == EmptyIfNull(d.avatar_url) && !loading
    {
      developer := d;
      name := d.name;
      avatarUrl := EmptyIfNull(d.avatar_url);
      loading := false;
    }

    method SetName(value: string)
      modifies this
      ensures name == value && avatarUrl == old(avatarUrl) && loading == old(loading)
    {
      name := value;
    }

    method SetAvatarUrl(value: string)
      modifies this
      ensures avatarUrl == value && name == old(name) && loading == old(loading)
    {
      avatarUrl := value;
    }

    /** Save: update the current developer's name and avatar link; the fields stay; `loading` ends false. */
    method HandleSave(db: Database, ok: bool)
      modifies this, db
      ensures db.developers == if ok && developer.id in old(db.developers)
                               then old(db.developers)[developer.id := PatchDeveloper(old(db.developers)[developer.id], SavePatch(old(name), old(avatarUrl)))]
                               else old(db.developers)
      ensures name == old(name) && avatarUrl == old(avatarUrl) && !loading
      ensures db.sprints == old(db.sprints) && db.bugs == old(db.bugs) && db.users == old(db.users)
    {
      loading := true;
      var _ := db.UpdateDeveloper(developer.id, SavePatch(name, avatarUrl), ok);
      loading := false;
    }
  }
}
