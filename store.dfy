/**
 * The hosted database as the form handlers see it: three tables keyed by
 * id, and the authentication service's users.  Whether a request succeeds
 * is decided outside the application, so every request takes its outcome
 * as a parameter (`ok`); ids and timestamps the database generates are
 * parameters too.
 */
module Store {
  import opened Wrappers
  import opened Types

  /** One column of an update payload: left out (`Keep`) or written (`Set`). */
  datatype Patch<T> = Keep | Set(value: T)

  function Apply<T>(p: Patch<T>, current: T): T {
    match p
    case Keep => current
    case Set(v) => v
  }

  datatype BugPatch = BugPatch(
    title: Patch<string>,
    description: Patch<Option<string>>,
    sprint_id: Patch<Option<Id>>,
    developer_id: Patch<Option<Id>>,
    penalty_amount: Patch<Option<int>>,
    penalty_status: Patch<Option<PenaltyStatus>>,
    image_url: Patch<Option<string>>)

  datatype SprintPatch = SprintPatch(
    name: Patch<string>,
    start_date: Patch<string>,
    end_date: Patch<string>,
    penalty_url: Patch<Option<string>>)

  datatype DeveloperPatch = DeveloperPatch(
    name: Patch<string>,
    email: Patch<string>,
    avatar_url: Patch<Option<string>>,
    role: Patch<Option<string>>)

  /** An update never touches `id` or `created_at`; the columns it leaves out keep their values. */
  function PatchBug(b: Bug, p: BugPatch): (r: Bug)
    ensures r.id == b.id && r.created_at == b.created_at
    ensures p.title.Keep? ==> r.title == b.title
    ensures p.description.Keep? ==> r.description == b.description
    ensures p.sprint_id.Keep? ==> r.sprint_id == b.sprint_id
    ensures p.developer_id.Keep? ==> r.developer_id == b.developer_id
    ensures p.penalty_amount.Keep? ==> r.penalty_amount == b.penalty_amount
    ensures p.penalty_status.Keep? ==> r.penalty_status == b.penalty_status
    ensures p.image_url.Keep? ==> r.image_url == b.image_url
  {
    Bug(b.id, Apply(p.title, b.title), Apply(p.description, b.description), Apply(p.sprint_id, b.sprint_id),
        Apply(p.developer_id, b.developer_id), Apply(p.penalty_amount, b.penalty_amount),
        Apply(p.penalty_status, b.penalty_status), Apply(p.image_url, b.image_url), b.created_at)
  }

  function PatchSprint(s: Sprint, p: SprintPatch): (r: Sprint)
    ensures r.id == s.id && r.created_at == s.created_at
    ensures p.name.Keep? ==> r.name == s.name
    ensures p.start_date.Keep? ==> r.start_date == s.start_date
    ensures p.end_date.Keep? ==> r.end_date == s.end_date
    ensures p.penalty_url.Keep? ==> r.penalty_url == s.penalty_url
  {
    Sprint(s.id, Apply(p.name, s.name), Apply(p.start_date, s.start_date), Apply(p.end_date, s.end_date),
           Apply(p.penalty_url, s.penalty_url), s.created_at)
  }

  function PatchDeveloper(d: Developer, p: DeveloperPatch): (r: Developer)
    ensures r.id == d.id && r.created_at == d.created_at
    ensures p.name.Keep? ==> r.name == d.name
    ensures p.email.Keep? ==> r.email == d.email
    ensures p.avatar_url.Keep? ==> r.avatar_url == d.avatar_url
    ensures p.role.Keep? ==> r.role == d.role
  {
    Developer(d.id, Apply(p.name, d.name), Apply(p.email, d.email), Apply(p.avatar_url, d.avatar_url),
              Apply(p.role, d.role), d.created_at)
  }

  /** A user of the authentication service with the metadata given at sign-up. */
  datatype AuthUser = AuthUser(email: string, name: string, role: string)

  /** What `auth.signUp` answers: an error, or success with or without a user record. */
  datatype SignUpAnswer = SignUpError | SignUpOk(user: Option<Id>)

  /**
   * What the database does with the bugs that point at a deleted sprint or
   * developer.  The schema decides it, so it is a parameter here: keep them
   * (no foreign key), delete them too (`on delete cascade`), or clear their
   * reference (`on delete set null`).  A foreign key that forbids the delete
   * shows up as a failed request.
   */
  datatype OnDelete = KeepBugs | Cascade | SetNull

  /** Which reference of a bug a delete concerns. */
  datatype BugRef = SprintRef | DeveloperRef

  function RefOf(b: Bug, which: BugRef): Option<Id> {
    match which
    case SprintRef => b.sprint_id
    case DeveloperRef => b.developer_id
  }

  function Detach(b: Bug, which: BugRef): Bug {
    match which
    case SprintRef => b.(sprint_id := None)
    case DeveloperRef => b.(developer_id := None)
  }

  /**
   * The bugs table after deleting the row `id` that `which` refers to.
   * Bugs that do not point at it are untouched; unless the rule keeps them,
   * none points at it afterwards; a cascade drops exactly the ones that did,
   * and set-null keeps every bug with only that reference cleared.
   */
  function BugsAfterDelete(bugs: map<Id, Bug>, which: BugRef, id: Id, rule: OnDelete): (r: map<Id, Bug>)
    ensures forall b :: b in bugs && RefOf(bugs[b], which) != Some(id) ==> b in r && r[b] == bugs[b]
    ensures forall b :: b in r ==> b in bugs
    ensures rule.KeepBugs? ==> r == bugs
    ensures !rule.KeepBugs? ==> forall b :: b in r ==> RefOf(r[b], which) != Some(id)
    ensures rule.Cascade? ==> forall b :: b in bugs && RefOf(bugs[b], which) == Some(id) ==> b !in r
    ensures rule.SetNull? ==> forall b :: b in bugs && RefOf(bugs[b], which) == Some(id) ==>
                                b in r && r[b] == Detach(bugs[b], which) && r[b].id == bugs[b].id
  {
    match rule
    case KeepBugs => bugs
    case Cascade => map b | b in bugs && RefOf(bugs[b], which) != Some(id) :: bugs[b]
    case SetNull => map b | b in bugs :: if RefOf(bugs[b], which) == Some(id) then Detach(bugs[b], which) else bugs[b]
  }

  /** Every sprint and developer a bug points at is in its table. */
  predicate ReferencesValid(bugs: map<Id, Bug>, sprints: map<Id, Sprint>, developers: map<Id, Developer>) {
    forall b :: b in bugs ==>
      (bugs[b].sprint_id.Some? ==> bugs[b].sprint_id.value in sprints) &&
      (bugs[b].developer_id.Some? ==> bugs[b].developer_id.value in developers)
  }

  /**
   * Deleting a sprint or a developer under the cascade or set-null rule
   * leaves no bug pointing at a missing row; keeping the bugs leaves those
   * that pointed at it dangling.
   */
  lemma DeleteKeepsReferencesValid(bugs: map<Id, Bug>, sprints: map<Id, Sprint>, developers: map<Id, Developer>, id: Id, rule: OnDelete)
    requires ReferencesValid(bugs, sprints, developers)
    ensures !rule.KeepBugs? ==> ReferencesValid(BugsAfterDelete(bugs, SprintRef, id, rule), sprints - {id}, developers)
    ensures !rule.KeepBugs? ==> ReferencesValid(BugsAfterDelete(bugs, DeveloperRef, id, rule), sprints, developers - {id})
    ensures rule.KeepBugs? && (exists b :: b in bugs && bugs[b].sprint_id == Some(id)) ==>
              !ReferencesValid(BugsAfterDelete(bugs, SprintRef, id, rule), sprints - {id}, developers)
  {
    if !rule.KeepBugs? {
      var r := BugsAfterDelete(bugs, SprintRef, id, rule);
      forall b | b in r
        ensures (r[b].sprint_id.Some? ==> r[b].sprint_id.value in sprints - {id}) &&
                (r[b].developer_id.Some? ==> r[b].developer_id.value in developers)
      {
        assert r[b] == bugs[b] || r[b] == Detach(bugs[b], SprintRef);
      }
      var q := BugsAfterDelete(bugs, DeveloperRef, id, rule);
      forall b | b in q
        ensures (q[b].sprint_id.Some? ==> q[b].sprint_id.value in sprints) &&
                (q[b].developer_id.Some? ==> q[b].developer_id.value in developers - {id})
      {
        assert q[b] == bugs[b] || q[b] == Detach(bugs[b], DeveloperRef);
      }
    }
  }

  /**
   * The tables.  An insert whose id is taken fails like any other failed
   * request; an update or delete of an id that is not there matches no row
   * and succeeds without changing anything.
   */
  class Database {
    var developers: map<Id, Developer>
    var sprints: map<Id, Sprint>
    var bugs: map<Id, Bug>
    var users: map<Id, AuthUser>

    constructor (developers0: map<Id, Developer>, sprints0: map<Id, Sprint>, bugs0: map<Id, Bug>, users0: map<Id, AuthUser>)
      ensures developers == developers0 && sprints == sprints0 && bugs == bugs0 && users == users0
    {
      developers := developers0;
      sprints := sprints0;
      bugs := bugs0;
      users := users0;
    }

    method InsertBug(row: Bug, ok: bool) returns (success: bool)
      modifies this
      ensures success <==> ok && row.id !in old(bugs)
      ensures bugs == if success then old(bugs)[row.id := row] else old(bugs)
      ensures developers == old(developers) && sprints == old(sprints) && users == old(users)
    {
      success := ok && row.id !in bugs;
      if success {
        bugs := bugs[row.id := row];
      }
    }

    method UpdateBug(id: Id, p: BugPatch, ok: bool) returns (success: bool)
      modifies this
      ensures success == ok
      ensures bugs == if ok && id in old(bugs) then old(bugs)[id := PatchBug(old(bugs)[id], p)] else old(bugs)
      ensures developers == old(developers) && sprints == old(sprints) && users == old(users)
    {
      success := ok;
      if ok && id in bugs {
        bugs := bugs[id := PatchBug(bugs[id], p)];
      }
    }

    method DeleteBug(id: Id, ok: bool) returns (success: bool)
      modifies this
      ensures success == ok
      ensures bugs == if ok then old(bugs) - {id} else old(bugs)
      ensures developers == old(developers) && sprints == old(sprints) && users == old(users)
    {
      success := ok;
      if ok {
        bugs := bugs - {id};
      }
    }

    method InsertSprint(row: Sprint, ok: bool) returns (success: bool)
      modifies this
      ensures success <==> ok && row.id !in old(sprints)
      ensures sprints == if success then old(sprints)[row.id := row] else old(sprints)
      ensures developers == old(developers) && bugs == old(bugs) && users == old(users)
    {
      success := ok && row.id !in sprints;
      if success {
        sprints := sprints[row.id := row];
      }
    }

    method UpdateSprint(id: Id, p: SprintPatch, ok: bool) returns (success: bool)
      modifies this
      ensures success == ok
      ensures sprints == if ok && id in old(sprints) then old(sprints)[id := PatchSprint(old(sprints)[id], p)] else old(sprints)
      ensures developers == old(developers) && bugs == old(bugs) && users == old(users)
    {
      success := ok;
      if ok && id in sprints {
        sprints := sprints[id := PatchSprint(sprints[id], p)];
      }
    }

    method DeleteSprint(id: Id, ok: bool, rule: OnDelete) returns (success: bool)
      modifies this
      ensures success == ok
      ensures sprints == if ok then old(sprints) - {id} else old(sprints)
      ensures bugs == if ok then BugsAfterDelete(old(bugs), SprintRef, id, rule) else old(bugs)
      ensures developers == old(developers) && users == old(users)
    {
      success := ok;
      if ok {
        sprints := sprints - {id};
        bugs := BugsAfterDelete(bugs, SprintRef, id, rule);
      }
    }

    method InsertDeveloper(row: Developer, ok: bool) returns (success: bool)
      modifies this
      ensures success <==> ok && row.id !in old(developers)
      ensures developers == if success then old(developers)[row.id := row] else old(developers)
      ensures sprints == old(sprints) && bugs == old(bugs) && users == old(users)
    {
      success := ok && row.id !in developers;
      if success {
        developers := developers[row.id := row];
      }
    }

    method UpdateDeveloper(id: Id, p: DeveloperPatch, ok: bool) returns (success: bool)
      modifies this
      ensures success == ok
      ensures developers == if ok && id in old(developers) then old(developers)[id := PatchDeveloper(old(developers)[id], p)] else old(developers)
      ensures sprints == old(sprints) && bugs == old(bugs) && users == old(users)
    {
      success := ok;
      if ok && id in developers {
        developers := developers[id := PatchDeveloper(developers[id], p)];
      }
    }

    method DeleteDeveloper(id: Id, ok: bool, rule: OnDelete) returns (success: bool)
      modifies this
      ensures success == ok
      ensures developers == if ok then old(developers) - {id} else old(developers)
      ensures bugs == if ok then BugsAfterDelete(old(bugs), DeveloperRef, id, rule) else old(bugs)
      ensures sprints == old(sprints) && users == old(users)
    {
      success := ok;
      if ok {
        developers := developers - {id};
        bugs := BugsAfterDelete(bugs, DeveloperRef, id, rule);
      }
    }

    /**
     * `auth.signUp`: the service's answer is a parameter; a user it reports
     * is recorded with the given metadata.
     */
    method SignUp(email: string, name: string, role: string, answer: SignUpAnswer) returns (result: SignUpAnswer)
      modifies this
      ensures result == answer
      ensures users == if answer.SignUpOk? && answer.user.Some? then old(users)[answer.user.value := AuthUser(email, name, role)] else old(users)
      ensures developers == old(developers) && sprints == old(sprints) && bugs == old(bugs)
    {
      result := answer;
      if answer.SignUpOk? && answer.user.Some? {
        users := users[answer.user.value := AuthUser(email, name, role)];
      }
    }
  }

  /** The patch with no column written leaves a record as it is. */
  lemma EmptyPatchesChangeNothing(b: Bug, s: Sprint, d: Developer)
    ensures PatchBug(b, BugPatch(Keep, Keep, Keep, Keep, Keep, Keep, Keep)) == b
    ensures PatchSprint(s, SprintPatch(Keep, Keep, Keep, Keep)) == s
    ensures PatchDeveloper(d, DeveloperPatch(Keep, Keep, Keep, Keep)) == d
  {
  }
}
