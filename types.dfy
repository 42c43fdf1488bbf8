/**
 * The records of the three tables.  Field names and types follow the
 * application's record interfaces; which fields may be `null` follows the
 * generated database row types (a bug's references, amount, status,
 * description and image; a developer's avatar and role; a sprint's payment
 * URL).  Identifiers and timestamps are strings issued by the database.
 */
module Types {
  import opened Wrappers

  type Id = string

  /** The three states of a bug's penalty. */
  datatype PenaltyStatus = Pending | Paid | Waived

  /** The text stored in the `penalty_status` column. */
  function StatusName(s: PenaltyStatus): (r: string)
    ensures r in {"pending", "paid", "waived"}
  {
    match s
    case Pending => "pending"
    case Paid => "paid"
    case Waived => "waived"
  }

  lemma StatusNameInjective(a: PenaltyStatus, b: PenaltyStatus)
    ensures StatusName(a) == StatusName(b) <==> a == b
  {
  }

  datatype Developer = Developer(
    id: Id,
    name: string,
    email: string,
    avatar_url: Option<string>,
    role: Option<string>,
    created_at: string)

  datatype Sprint = Sprint(
    id: Id,
    name: string,
    start_date: string,
    end_date: string,
    penalty_url: Option<string>,
    created_at: string)

  datatype Bug = Bug(
    id: Id,
    title: string,
    description: Option<string>,
    sprint_id: Option<Id>,
    developer_id: Option<Id>,
    penalty_amount: Option<int>,
    penalty_status: Option<PenaltyStatus>,
    image_url: Option<string>,
    created_at: string)

  /** A bug as fetched with its developer and sprint joined in (either may be missing). */
  datatype BugWithDetails = BugWithDetails(bug: Bug, developer: Option<Developer>, sprint: Option<Sprint>)

  /**
   * `Number(x) || 0` on a penalty amount: a missing or non-numeric amount
   * (null, or NaN) counts as 0.  Amounts are whole VND.
   */
  function Amount(p: Option<int>): (r: int)
    ensures p.None? ==> r == 0
    ensures p.Some? ==> r == p.value
  {
    match p
    case None => 0
    case Some(v) => v
  }

  function BugAmount(b: BugWithDetails): int {
    Amount(b.bug.penalty_amount)
  }

  /** A text that stands for "nothing" when it is `sentinel`, and for itself otherwise. */
  function NoneIf(s: string, sentinel: string): (r: Option<string>)
    ensures r.None? <==> s == sentinel
    ensures r.Some? ==> r.value == s
  {
    if s == sentinel then None else Some(s)
  }

  /** `s || null`: an empty text field is stored as null. */
  function NullIfEmpty(s: string): Option<string> {
    NoneIf(s, "")
  }

  /** A filter select's value: its "all" item stands for no filter. */
  function SelectValue(v: string): Option<string> {
    NoneIf(v, "all")
  }

  /** `x || ""`: a form field prefilled from a nullable column. */
  function EmptyIfNull(o: Option<string>): (r: string)
    ensures o.Some? ==> r == o.value
    ensures o.None? ==> r == ""
  {
    match o
    case None => ""
    case Some(v) => v
  }

  /** Prefilling a field and saving it unchanged gives back the column, except that "" reads back as null. */
  lemma PrefillRoundTrip(o: Option<string>, s: string)
    ensures NullIfEmpty(EmptyIfNull(o)) == (if o == Some("") then None else o)
    ensures EmptyIfNull(NullIfEmpty(s)) == s
  {
  }

  /** JavaScript truthiness of an optional string: present and non-empty. */
  predicate Truthy(o: Option<string>) {
    o.Some? && o.value != ""
  }

  /** `x || fallback` on a text that may be missing. */
  function OrElse(o: Option<string>, fallback: string): (r: string)
    ensures Truthy(o) ==> r == o.value
    ensures !Truthy(o) ==> r == fallback
  {
    if Truthy(o) then o.value else fallback
  }

  /** `b.developer_id === dev` */
  function DeveloperIs(dev: Id): BugWithDetails -> bool {
    (b: BugWithDetails) => b.bug.developer_id == Some(dev)
  }

  /** `b.sprint_id === sprint` */
  function SprintIs(sprint: Id): BugWithDetails -> bool {
    (b: BugWithDetails) => b.bug.sprint_id == Some(sprint)
  }

  /** `toUpperCase` on the ASCII letters; every other character is kept. */
  function AsciiUpper(c: char): char {
    if 'a' <= c <= 'z' then (c as int - 32) as char else c
  }

  /**
   * An avatar's fallback text: `name.slice(0, 2).toUpperCase()`, the first
   * two characters (fewer for a shorter name) in upper case.
   */
  function Initials(name: string): (r: string)
    ensures |r| == if |name| < 2 then |name| else 2
    ensures forall i :: 0 <= i < |r| ==> r[i] == AsciiUpper(name[i]) && !('a' <= r[i] <= 'z')
  {
    var head := if |name| < 2 then name else name[..2];
    seq(|head|, i requires 0 <= i < |head| => AsciiUpper(head[i]))
  }
}
