/** The client's types: `JobApplication` (a row as the API sends it, without
    owner and update time), `JobStatus` (the four statuses plus "All", the
    dashboard filter), and the job form's data, which every screen that
    edits a job keeps as six strings. */
module ClientTypes {
  import opened Wrappers
  import opened Strings
  import opened Schema
  import opened Http

  /** `JobApplication`. The status is one of the four literals; date, notes
      and link may be null; `created_at` arrives as text. */
  datatype Job = Job(
    id: int,
    company: string,
    role: string,
    status: Status,
    appliedDate: Option<string>,
    notes: Option<string>,
    jobLink: Option<string>,
    createdAt: string)

  /** The JSON rendering of a stored row as the client reads it: `user_id`
      and `updated_at` are dropped; `render` is how the driver prints a
      timestamp. The applied date is passed on as its stored text (see
      `Schema.Row`). */
  function JobOf(r: Row, render: Timestamp -> string): Job {
    Job(r.id, r.company, r.role, r.status, r.appliedDate, r.notes, r.jobLink, render(r.createdAt))
  }

  /** `JobStatus`: "All" or one of the four statuses. */
  datatype JobStatus = All | Only(status: Status)

  function JobStatusText(f: JobStatus): string {
    match f
    case All => "All"
    case Only(s) => StatusText(s)
  }

  /** The `JobStatus` a text names, if any. */
  function ParseJobStatus(t: string): (f: Option<JobStatus>)
    ensures f.Some? <==> t == "All" || ParseStatus(t).Some?
    ensures f.Some? ==> JobStatusText(f.value) == t
  {
    if t == "All" then Some(All)
    else match ParseStatus(t)
      case Some(s) => Some(Only(s))
      case None => None
  }

  /** Every `JobStatus` has its own text, and reading it back gives it. */
  lemma JobStatusRoundTrip(f: JobStatus)
    ensures ParseJobStatus(JobStatusText(f)) == Some(f)
  {
    if f.Only? {
      StatusRoundTrip(f.status);
    }
  }

  /** Two filters with the same text are the same filter. */
  lemma JobStatusTextInjective(f: JobStatus, g: JobStatus)
    requires JobStatusText(f) == JobStatusText(g)
    ensures f == g
  {
    JobStatusRoundTrip(f);
    JobStatusRoundTrip(g);
  }

  /** The four statuses in display order. */
  const StatusOrder: seq<Status> := [Applied, Interview, Offer, Rejected]

  lemma StatusOrderListsEachOnce(s: Status)
    ensures s in StatusOrder
    ensures forall i, j :: 0 <= i < j < |StatusOrder| ==> StatusOrder[i] != StatusOrder[j]
  {
  }

  /** The job form: the six fields as the inputs hold them. */
  datatype FormData = FormData(
    company: string,
    role: string,
    status: string,
    appliedDate: string,
    notes: string,
    jobLink: string)

  /** The form of a new job: everything empty and status "Applied". */
  const DefaultForm: FormData := FormData("", "", "Applied", "", "", "")

  /** The form of an edited job: company, role and status copied; a null
      notes, link or date shown as ""; a date shown through `toDateInput`
      (the browser's `toISOString().split("T")[0]`). */
  function FormFromJob(j: Job, toDateInput: string -> string): (f: FormData)
    ensures f.company == j.company && f.role == j.role && ParseStatus(f.status) == Some(j.status)
    ensures f.notes == "" <==> !Truthy(j.notes)
    ensures Truthy(j.notes) ==> f.notes == j.notes.value
    ensures f.jobLink == "" <==> !Truthy(j.jobLink)
    ensures Truthy(j.jobLink) ==> f.jobLink == j.jobLink.value
    ensures !Truthy(j.appliedDate) ==> f.appliedDate == ""
    ensures Truthy(j.appliedDate) ==> f.appliedDate == toDateInput(j.appliedDate.value)
  {
    StatusRoundTrip(j.status);
    FormData(j.company, j.role, StatusText(j.status),
             if Truthy(j.appliedDate) then toDateInput(j.appliedDate.value) else "",
             OrElse(j.notes, ""), OrElse(j.jobLink, ""))
  }

  /** A null field and an empty one look the same in the form. */
  lemma FormForgetsNull(j: Job, toDateInput: string -> string)
    ensures FormFromJob(j.(notes := None), toDateInput) == FormFromJob(j.(notes := Some("")), toDateInput)
    ensures FormFromJob(j.(jobLink := None), toDateInput) == FormFromJob(j.(jobLink := Some("")), toDateInput)
    ensures FormFromJob(j.(appliedDate := None), toDateInput) == FormFromJob(j.(appliedDate := Some("")), toDateInput)
  {
  }

  /** One input of the form. */
  datatype Field = CompanyField | RoleField | StatusField | DateField | NotesField | LinkField

  /** The form after an input's `onChange`: `{ ...formData, field: value }`. */
  function WithField(f: FormData, field: Field, v: string): FormData {
    match field
    case CompanyField => f.(company := v)
    case RoleField => f.(role := v)
    case StatusField => f.(status := v)
    case DateField => f.(appliedDate := v)
    case NotesField => f.(notes := v)
    case LinkField => f.(jobLink := v)
  }

  /** The JSON body the form is sent as: every field present, as a string. */
  function BodyOf(f: FormData): Body {
    Body(Some(f.company), Some(f.role), Some(f.status), Some(f.appliedDate), Some(f.notes), Some(f.jobLink))
  }
}
