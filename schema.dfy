/** The `job_applications` table created by the migration: its row type, the
    NOT NULL and CHECK constraints an INSERT must pass, the row-level trigger
    that stamps `updated_at`, and the cascade from deleted users.

    Values checked by a constraint are typed so that a stored row cannot break
    it: `company`, `role`, `user_id` and both timestamps are not optional, and
    `status` is one of the four constructors of `Status`. */
module Schema {
  import opened Wrappers
  import Seqs

  /** The four values the CHECK constraint on `status` admits. */
  datatype Status = Applied | Interview | Offer | Rejected

  /** The text stored for a status. */
  function StatusText(s: Status): string {
    match s
    case Applied => "Applied"
    case Interview => "Interview"
    case Offer => "Offer"
    case Rejected => "Rejected"
  }

  /** The CHECK constraint `status IN ('Applied', 'Interview', 'Offer',
      'Rejected')`: the status a text denotes, if it denotes one. */
  function ParseStatus(t: string): (r: Option<Status>)
    ensures r.Some? <==> t == "Applied" || t == "Interview" || t == "Offer" || t == "Rejected"
    ensures r.Some? ==> StatusText(r.value) == t
  {
    if t == "Applied" then Some(Applied)
    else if t == "Interview" then Some(Interview)
    else if t == "Offer" then Some(Offer)
    else if t == "Rejected" then Some(Rejected)
    else None
  }

  /** Storing a status and reading it back gives the same status. */
  lemma StatusRoundTrip(s: Status)
    ensures ParseStatus(StatusText(s)) == Some(s)
  {
  }

  /** The column default of `status`, used when an INSERT omits the column. */
  const DefaultStatus: Status := Applied

  /** `auth.users.id`, a uuid. */
  type UserId = string

  /** A reading of the database clock (`current_timestamp`, `NOW()`). */
  type Timestamp = int

  /** One row of `job_applications`. `appliedDate` holds the text the date
      was written from; how PostgreSQL renders a date is not modelled. */
  datatype Row = Row(
    id: nat,
    userId: UserId,
    company: string,
    role: string,
    status: Status,
    appliedDate: Option<string>,
    notes: Option<string>,
    jobLink: Option<string>,
    createdAt: Timestamp,
    updatedAt: Timestamp)

  /** Why a statement on the table fails. */
  datatype DbError =
    | NotNullViolation(column: string)
    | CheckViolation(column: string)
    | InvalidDateInput(text: string)

  /** An INSERT that names `user_id`, `company`, `role`, `status`,
      `applied_date`, `notes` and `job_link` (None is SQL NULL): it fails on a
      NULL in a NOT NULL column, on a status outside the CHECK, and on a date
      text that `isDate` (PostgreSQL's date input) rejects; otherwise the row
      is stored with the given id and both timestamps set to `now`. */
  function InsertRow(id: nat, userId: UserId, company: Option<string>, role: Option<string>,
                     status: Option<string>, appliedDate: Option<string>, notes: Option<string>,
                     jobLink: Option<string>, now: Timestamp, isDate: string -> bool): (r: Result<Row, DbError>)
    ensures r.Success? <==>
      company.Some? && role.Some? && status.Some? && ParseStatus(status.value).Some? &&
      (appliedDate.Some? ==> isDate(appliedDate.value))
    ensures r.Success? ==>
      && r.value.id == id && r.value.userId == userId
      && Some(r.value.company) == company && Some(r.value.role) == role
      && Some(StatusText(r.value.status)) == status
      && r.value.appliedDate == appliedDate && r.value.notes == notes && r.value.jobLink == jobLink
      && r.value.createdAt == now && r.value.updatedAt == now
  {
    if company.None? then Failure(NotNullViolation("company"))
    else if role.None? then Failure(NotNullViolation("role"))
    else if status.None? then Failure(NotNullViolation("status"))
    else if ParseStatus(status.value).None? then Failure(CheckViolation("status"))
    else if appliedDate.Some? && !isDate(appliedDate.value) then Failure(InvalidDateInput(appliedDate.value))
    else Success(Row(id, userId, company.value, role.value, ParseStatus(status.value).value,
                     appliedDate, notes, jobLink, now, now))
  }

  /** The BEFORE UPDATE row trigger `update_updated_at_column`: the new row
      is stored with `updated_at` set to the current time and nothing else
      changed. */
  function BeforeUpdate(newRow: Row, now: Timestamp): (stored: Row)
    ensures stored.updatedAt == now
    ensures stored.(updatedAt := newRow.updatedAt) == newRow
  {
    newRow.(updatedAt := now)
  }

  /** The rows owned by `u`, in table order. */
  function OwnedBy(rows: seq<Row>, u: UserId): (r: seq<Row>)
    ensures forall x :: x in r <==> x in rows && x.userId == u
  {
    Seqs.Keep(rows, (x: Row) => x.userId == u)
  }

  /** `ON DELETE CASCADE` on `user_id`: deleting a user deletes exactly that
      user's rows and keeps everybody else's as they were, in order. */
  function CascadeDeleteUser(rows: seq<Row>, u: UserId): (r: seq<Row>)
    ensures forall x :: x in r <==> x in rows && x.userId != u
  {
    Seqs.Keep(rows, (x: Row) => x.userId != u)
  }

  /** After the cascade the deleted user owns nothing. */
  lemma CascadeRemovesUser(rows: seq<Row>, u: UserId)
    ensures OwnedBy(CascadeDeleteUser(rows, u), u) == []
  {
    Seqs.KeepNone(CascadeDeleteUser(rows, u), (x: Row) => x.userId == u);
  }

  /** After the cascade, every other user's rows are exactly what they were. */
  lemma CascadeKeepsOtherUsers(rows: seq<Row>, u: UserId, v: UserId)
    requires v != u
    ensures OwnedBy(CascadeDeleteUser(rows, u), v) == OwnedBy(rows, v)
  {
    var notU := (x: Row) => x.userId != u;
    var isV := (x: Row) => x.userId == v;
    Seqs.KeepNarrower(rows, notU, isV);
  }
}
