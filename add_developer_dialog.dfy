/**
 * The "Add Developer" dialog (components/add-developer-dialog.tsx): first
 * an account is created with the authentication service, carrying the
 * name and role as metadata; then, if the service returned a user, a
 * developer row is inserted under that user's id.  A failed second step
 * leaves the account in place.
 */
module AddDeveloperDialog {
  import opened Wrappers
  import opened Types
  import opened Store

  /** The submitted form; the role select may send nothing or "". */
  datatype AddDeveloperForm = AddDeveloperForm(
    name: string,
    email: string,
    avatarUrl: string,
    role: Option<string>)

  /** `role || "user"`, used for both the account metadata and the row. */
  function RoleOf(f: AddDeveloperForm): (r: string)
    ensures r != ""
    ensures Truthy(f.role) ==> r == f.role.value
    ensures !Truthy(f.role) ==> r == "user"
  {
    OrElse(f.role, "user")
  }

  /** The inserted row: keyed by the new account's id, an empty avatar link as null. */
  function NewDeveloper(f: AddDeveloperForm, userId: Id, createdAt: string): (d: Developer)
    ensures d.id == userId && d.name == f.name && d.email == f.email && d.role == Some(RoleOf(f))
    ensures d.avatar_url.None? <==> f.avatarUrl == ""
    ensures EmptyIfNull(d.avatar_url) == f.avatarUrl
  {
    Developer(userId, f.name, f.email, NullIfEmpty(f.avatarUrl), Some(RoleOf(f)), createdAt)
  }

  /** The row and the account describe the same person: same id, name, email and role. */
  lemma RowMatchesAccount(f: AddDeveloperForm, userId: Id, createdAt: string)
    ensures var d := NewDeveloper(f, userId, createdAt);
            var u := AuthUser(f.email, f.name, RoleOf(f));
            d.email == u.email && d.name == u.name && d.role == Some(u.role)
  {
  }

  class AddDeveloperDialogState {
    var open: bool
    var loading: bool

    constructor ()
      ensures !open && !loading
    {
      open := false;
      loading := false;
    }

    method SetOpen(value: bool)
      modifies this
      ensures open == value && loading == old(loading)
    {
      open := value;
    }

    /**
     * Submit.  The service's answer to the sign-up and the outcome of the
     * insert are parameters.  A sign-up error stops before any insert; an
     * answer without a user inserts nothing but still closes the dialog;
     * with a user the row is inserted under its id, and the dialog closes
     * only if that succeeds.  The account stays whatever the insert does.
     */
    method OnSubmit(db: Database, f: AddDeveloperForm, answer: SignUpAnswer, createdAt: string, insertOk: bool)
      modifies this, db
      ensures db.users == if answer.SignUpOk? && answer.user.Some?
                          then old(db.users)[answer.user.value := AuthUser(f.email, f.name, RoleOf(f))]
                          else old(db.users)
      ensures answer.SignUpError? ==> db.developers == old(db.developers) && open == old(open)
      ensures answer == SignUpOk(None) ==> db.developers == old(db.developers) && !open
      ensures answer.SignUpOk? && answer.user.Some? ==>
                var u := answer.user.value;
                var success := insertOk && u !in old(db.developers);
                db.developers == (if success then old(db.developers)[u := NewDeveloper(f, u, createdAt)] else old(db.developers)) &&
                open == (old(open) && !success)
      ensures !loading
      ensures db.sprints == old(db.sprints) && db.bugs == old(db.bugs)
    {
      loading := true;
      var result := db.SignUp(f.email, f.name, RoleOf(f), answer);
      if result.SignUpOk? {
        if result.user.Some? {
          var success := db.InsertDeveloper(NewDeveloper(f, result.user.value, createdAt), insertOk);
          if success {
            open := false;
          }
        } else {
          open := false;
        }
      }
      loading := false;
    }
  }
}
