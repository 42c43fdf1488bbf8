/** The developer cards (components/developer-list.tsx): the avatar fallback and deleting a developer after confirmation. */
module DeveloperList {
  import opened Wrappers
  import opened Types
  import opened Store
  import BugList

  /** A card's avatar fallback: the first two characters of the name (fewer for a shorter one), upper-cased. */
  function AvatarFallback(d: Developer): (r: string)
    ensures |r| == if |d.name| < 2 then |d.name| else 2
    ensures forall i :: 0 <= i < |r| ==> r[i] == AsciiUpper(d.name[i])
  {
    Initials(d.name)
  }

  /** A developer's card and the cards of their bugs show the same fallback. */
  lemma SameFallbackOnBugCards(b: BugWithDetails)
    requires b.developer.Some?
    ensures BugList.AvatarFallback(b) == Some(AvatarFallback(b.developer.value))
  {
  }

  /** `developers.length === 0`: the list shows its empty-state message instead of cards. */
  function ShowsEmptyState(developers: seq<Developer>): (r: bool)
    ensures r <==> developers == []
  {
    |developers| == 0
  }

  class DeveloperListView {
    var editingDeveloper: Option<Developer>
    var deletingDeveloper: Option<Developer>

    constructor ()
      ensures editingDeveloper.None? && deletingDeveloper.None?
    {
      editingDeveloper := None;
      deletingDeveloper := None;
    }

    method AskDelete(d: Developer)
      modifies this
      ensures deletingDeveloper == Some(d) && editingDeveloper == old(editingDeveloper)
    {
      deletingDeveloper := Some(d);
    }

    /**
     * The confirmed delete: a no-op without a pending developer; otherwise
     * only that developer's row is deleted (its bugs as the database's rule
     * for them says) and the pending state is cleared on success and on
     * failure alike.
     */
    method HandleDelete(db: Database, ok: bool, rule: OnDelete)
      modifies this, db
      ensures old(deletingDeveloper).None? ==> unchanged(db)
      ensures old(deletingDeveloper).Some? ==>
                var id := old(deletingDeveloper).value.id;
                db.developers == (if ok then old(db.developers) - {id} else old(db.developers)) &&
                db.bugs == (if ok then BugsAfterDelete(old(db.bugs), DeveloperRef, id, rule) else old(db.bugs))
      ensures db.sprints == old(db.sprints) && db.users == old(db.users)
      ensures deletingDeveloper.None? && editingDeveloper == old(editingDeveloper)
    {
      if deletingDeveloper.None? {
        return;
      }
      var _ := db.DeleteDeveloper(deletingDeveloper.value.id, ok, rule);
      deletingDeveloper := None;
    }
  }
}
