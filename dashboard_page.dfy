/** `app/page.tsx`: the older all-in-one dashboard that calls the API with
    `fetch` itself. Its state is the list, `loading`, the status filter, the
    modal (`isModalOpen`, `editingJob`, `submitting`, `formData`) and a copy
    of the auth form's state. Every `fetch` is returned as the request it
    sends, and its outcome is a parameter. The session is the current
    `session?.access_token` (None when signed out). */
module DashboardPage {
  import opened Wrappers
  import opened Strings
  import Seqs
  import opened Schema
  import opened ClientTypes
  import opened ApiService
  import opened ApplicationsService
  import opened StatsGrid
  import opened AuthScreen

  const AllFilter: string := "All"

  /** `Bearer ${session?.access_token}`: with no session the template
      prints "undefined". */
  function BearerOf(session: Option<string>): (h: string)
    ensures session.Some? ==> h == "Bearer " + session.value
    ensures session.None? ==> h == "Bearer undefined"
  {
    "Bearer " + (if session.Some? then session.value else "undefined")
  }

  /** The list URL: the collection, with `?status=` and the filter unless
      the filter is "All". */
  function ListUrl(env: Option<string>, filter: string): (url: string)
    ensures filter == AllFilter ==> url == ApiUrl(env) + CollectionPath
    ensures filter != AllFilter ==> url == ApiUrl(env) + CollectionPath + "?status=" + filter
  {
    ApiUrl(env) + CollectionPath + (if filter != AllFilter then "?status=" + filter else "")
  }

  /** Different filters ask for different URLs. */
  lemma ListUrlInjective(env: Option<string>, f: string, g: string)
    requires ListUrl(env, f) == ListUrl(env, g)
    ensures f == g
  {
    var base := ApiUrl(env) + CollectionPath;
    var query := "?status=";
    if f != AllFilter && g != AllFilter {
      assert f == ListUrl(env, f)[|base| + |query|..];
      assert g == ListUrl(env, g)[|base| + |query|..];
    }
  }

  /** The request `fetchJobs` sends: only the `Authorization` header. */
  function ListRequest(env: Option<string>, filter: string, session: Option<string>): (r: HttpRequest)
    ensures r.verb == "GET" && r.body == None && r.url == ListUrl(env, filter)
    ensures r.headers == map["Authorization" := BearerOf(session)]
  {
    HttpRequest(ListUrl(env, filter), "GET", map["Authorization" := BearerOf(session)], None)
  }

  /** The request `handleSubmit` sends: PATCH on the edited job, POST on the
      collection otherwise, with the form as body. */
  function SaveRequest(env: Option<string>, editing: Option<Job>, form: FormData, session: Option<string>): (r: HttpRequest)
    ensures editing.Some? ==> r.url == ApiUrl(env) + ItemPath(editing.value.id) && r.verb == "PATCH"
    ensures editing.None? ==> r.url == ApiUrl(env) + CollectionPath && r.verb == "POST"
    ensures r.body == Some(form)
    ensures r.headers == map["Content-Type" := JsonContentType, "Authorization" := BearerOf(session)]
  {
    HttpRequest(
      if editing.Some? then ApiUrl(env) + ItemPath(editing.value.id) else ApiUrl(env) + CollectionPath,
      if editing.Some? then "PATCH" else "POST",
      map["Content-Type" := JsonContentType, "Authorization" := BearerOf(session)],
      Some(form))
  }

  /** The request `handleDelete` sends. */
  function DeleteRequest(env: Option<string>, id: int, session: Option<string>): (r: HttpRequest)
    ensures r.url == ApiUrl(env) + ItemPath(id) && r.verb == "DELETE" && r.body == None
    ensures r.headers == map["Authorization" := BearerOf(session)]
  {
    HttpRequest(ApiUrl(env) + ItemPath(id), "DELETE", map["Authorization" := BearerOf(session)], None)
  }

  /** With a session, the page's save is exactly the service's `create` or
      `update`, and its list and delete requests differ from the service's
      only in leaving out the content type. */
  lemma RequestsAgreeWithService(env: Option<string>, editing: Option<Job>, form: FormData, id: int, token: string)
    requires token != ""
    ensures SaveRequest(env, editing, form, Some(token)) ==
      ToRequest(env, if editing.Some? then Update(editing.value.id, form, token) else Create(form, token))
    ensures ListRequest(env, AllFilter, Some(token)) ==
      ToRequest(env, GetAll(token)).(headers := ToRequest(env, GetAll(token)).headers - {"Content-Type"})
    ensures DeleteRequest(env, id, Some(token)) ==
      ToRequest(env, Remove(id, token)).(headers := ToRequest(env, Remove(id, token)).headers - {"Content-Type"})
  {
    var h := GetHeaders(token);
    assert h == map["Content-Type" := JsonContentType, "Authorization" := "Bearer " + token];
    assert h - {"Content-Type"} == map["Authorization" := "Bearer " + token];
  }

  /** What a `fetch` of the list gave: a rejection, or a response with its
      `ok` flag and what `res.json()` produced. */
  datatype ListReply = ListRejected | ListResponse(ok: bool, json: Outcome<seq<Job>>)

  /** What a save or delete `fetch` gave: a rejection, or a response. */
  datatype Answer = Rejected | Answered(ok: bool)

  predicate AnsweredOk(a: Answer) {
    a.Answered? && a.ok
  }

  datatype DashState = DashState(
    jobs: seq<Job>,
    loading: bool,
    filterStatus: string,
    isModalOpen: bool,
    editingJob: Option<Job>,
    submitting: bool,
    form: FormData,
    auth: AuthState)

  /** The state on first render: no jobs, loading, filter "All", the modal
      closed with the blank form. */
  const InitialDash: DashState := DashState([], true, AllFilter, false, None, false, DefaultForm, InitialAuth)

  /** `fetchJobs`: the list is replaced only by the body of an ok response
      that parsed; `loading` ends false in every case. */
  function PageFetch(s: DashState, reply: ListReply): (t: DashState)
    ensures t == s.(loading := false, jobs := t.jobs)
    ensures reply.ListResponse? && reply.ok && reply.json.Ok? ==> t.jobs == reply.json.value
    ensures !(reply.ListResponse? && reply.ok && reply.json.Ok?) ==> t.jobs == s.jobs
  {
    match reply
    case ListResponse(true, Ok(data)) => s.(loading := false, jobs := data)
    case _ => s.(loading := false)
  }

  /** The first effect (on the session and, through `fetchJobs`, on the
      filter): fetch with a session, otherwise only stop loading. */
  function FetchEffect(s: DashState, session: Option<string>, reply: ListReply): (t: DashState)
    ensures session.None? ==> t == s.(loading := false)
    ensures session.Some? ==> t == PageFetch(s, reply)
  {
    if session.Some? then PageFetch(s, reply) else s.(loading := false)
  }

  /** The second session effect: the auth inputs and error are cleared. */
  function ClearAuthInputs(s: DashState): DashState
  {
    s.(auth := s.auth.(email := "", password := "", confirm := "", error := None))
  }

  /** `handleSubmit` when no refetch follows: `submitting` ends false; an
      ok response closes the modal, forgets the edited job and resets the
      form, and nothing else changes otherwise. */
  function AfterSave(s: DashState, answer: Answer): (t: DashState)
    ensures !t.submitting && t.jobs == s.jobs && t.loading == s.loading && t.auth == s.auth
    ensures t.filterStatus == s.filterStatus
    ensures AnsweredOk(answer) ==> !t.isModalOpen && t.editingJob == None && t.form == DefaultForm
    ensures !AnsweredOk(answer) ==> t == s.(submitting := false)
  {
    if AnsweredOk(answer) then
      s.(isModalOpen := false, editingJob := None, form := DefaultForm, submitting := false)
    else s.(submitting := false)
  }

  /** `handleDelete`: nothing without confirmation; an ok response removes
      the jobs with that id; anything else changes nothing. */
  function AfterDelete(s: DashState, id: int, confirmed: bool, answer: Answer): (t: DashState)
    ensures !confirmed || !AnsweredOk(answer) ==> t == s
    ensures confirmed && AnsweredOk(answer) ==> t == s.(jobs := Seqs.Keep(s.jobs, (j: Job) => j.id != id))
  {
    if confirmed && AnsweredOk(answer) then s.(jobs := Seqs.Keep(s.jobs, (j: Job) => j.id != id)) else s
  }

  /** A confirmed, successful delete leaves exactly the other jobs. */
  lemma DeleteLeavesOthers(s: DashState, id: int, x: Job)
    ensures x in AfterDelete(s, id, true, Answered(true)).jobs <==> x in s.jobs && x.id != id
  {
  }

  /** `openEditModal`. */
  function OpenEdit(s: DashState, job: Job, toDateInput: string -> string): DashState
  {
    s.(editingJob := Some(job), form := FormFromJob(job, toDateInput), isModalOpen := true)
  }

  /** A submit after `openEditModal` patches that job with its form. */
  lemma EditSubmitsPatch(env: Option<string>, session: Option<string>, s: DashState, job: Job, toDateInput: string -> string)
    ensures var t := OpenEdit(s, job, toDateInput);
      SaveRequest(env, t.editingJob, t.form, session) ==
        HttpRequest(ApiUrl(env) + ItemPath(job.id), "PATCH",
                    map["Content-Type" := JsonContentType, "Authorization" := BearerOf(session)],
                    Some(FormFromJob(job, toDateInput)))
  {
  }

  /** A submit after the add button posts the form to the collection. */
  lemma AddSubmitsPost(env: Option<string>, session: Option<string>, s: DashState)
    ensures var t := OpenAdd(s);
      t.isModalOpen && t.form == DefaultForm &&
      SaveRequest(env, t.editingJob, t.form, session).verb == "POST" &&
      SaveRequest(env, t.editingJob, t.form, session).url == ApiUrl(env) + CollectionPath
  {
  }

  /** The header's add button. */
  function OpenAdd(s: DashState): DashState
  {
    s.(editingJob := None, form := DefaultForm, isModalOpen := true)
  }

  /** The empty list's "+ Add New Application" and the modal's close
      buttons only open or close the modal. */
  function SetModalOpen(s: DashState, open: bool): DashState
  {
    s.(isModalOpen := open)
  }

  /** Closing an edit with the close button and then using the empty
      list's add button reopens the same job for editing, even when it has
      since been deleted. */
  lemma EmptyListButtonKeepsEditedJob(s: DashState, job: Job, toDateInput: string -> string)
    ensures var t := SetModalOpen(AfterDelete(SetModalOpen(OpenEdit(s, job, toDateInput), false), job.id, true, Answered(true)), true);
      t.isModalOpen && t.editingJob == Some(job) && job !in t.jobs
  {
  }

  /** The stat counts above the list: one per status, in display order. */
  function StatCounts(jobs: seq<Job>): (counts: seq<nat>)
    ensures |counts| == |StatusOrder|
    ensures forall i :: 0 <= i < |counts| ==> counts[i] == Cards(jobs, AllFilter)[i].count
  {
    seq(|StatusOrder|, (i: int) requires 0 <= i < |StatusOrder| => Count(jobs, StatusOrder[i]))
  }

  /** The counts add up to the length of the list. */
  lemma StatCountsSum(jobs: seq<Job>)
    ensures StatCounts(jobs)[0] + StatCounts(jobs)[1] + StatCounts(jobs)[2] + StatCounts(jobs)[3] == |jobs|
  {
    CountsSumToTotal(jobs);
  }

  /** The counts are of the listed jobs, which the server has already
      narrowed by the filter: when every job has one status, every other
      count is zero. */
  lemma FilteredCountsCollapse(jobs: seq<Job>, s: Status, i: nat)
    requires forall j :: j in jobs ==> j.status == s
    requires i < |StatusOrder|
    ensures StatusOrder[i] != s ==> StatCounts(jobs)[i] == 0
    ensures StatusOrder[i] == s ==> StatCounts(jobs)[i] == |jobs|
  {
    var p := (j: Job) => j.status == s;
    if StatusOrder[i] == s {
      Seqs.KeepAll(jobs, p);
    }
  }

  class Dashboard {
    var jobs: seq<Job>
    var loading: bool
    var filterStatus: string
    var isModalOpen: bool
    var editingJob: Option<Job>
    var submitting: bool
    var formData: FormData
    var auth: AuthState

    function State(): DashState
      reads this
    {
      DashState(jobs, loading, filterStatus, isModalOpen, editingJob, submitting, formData, auth)
    }

    constructor()
      ensures State() == InitialDash
    {
      jobs := [];
      loading := true;
      filterStatus := AllFilter;
      isModalOpen := false;
      editingJob := None;
      submitting := false;
      formData := DefaultForm;
      auth := InitialAuth;
    }

    /** `fetchJobs`. */
    method FetchJobs(env: Option<string>, session: Option<string>, reply: ListReply) returns (req: HttpRequest)
      modifies this
      ensures req == ListRequest(env, old(filterStatus), session)
      ensures State() == PageFetch(old(State()), reply)
    {
      loading := true;
      req := ListRequest(env, filterStatus, session);
      match reply {
        case ListRejected =>
        case ListResponse(ok, json) =>
          if ok && json.Ok? {
            jobs := json.value;
          }
      }
      loading := false;
    }

    /** A change of session: both effects run. */
    method OnSession(env: Option<string>, session: Option<string>, reply: ListReply) returns (req: Option<HttpRequest>)
      modifies this
      ensures State() == ClearAuthInputs(FetchEffect(old(State()), session, reply))
      ensures req == if session.Some? then Some(ListRequest(env, old(filterStatus), session)) else None
    {
      if session.Some? {
        var r := FetchJobs(env, session, reply);
        req := Some(r);
      } else {
        loading := false;
        req := None;
      }
      auth := auth.(email := "", password := "", confirm := "", error := None);
    }

    /** The filter select's `onChange`: the new filter, then the fetch
        effect for it. (The page's stat cards are not clickable.) */
    method SetFilter(env: Option<string>, session: Option<string>, filter: string, reply: ListReply)
      returns (req: Option<HttpRequest>)
      modifies this
      ensures State() == FetchEffect(old(State()).(filterStatus := filter), session, reply)
      ensures req == if session.Some? then Some(ListRequest(env, filter, session)) else None
    {
      filterStatus := filter;
      if session.Some? {
        var r := FetchJobs(env, session, reply);
        req := Some(r);
      } else {
        loading := false;
        req := None;
      }
    }

    /** `handleSubmit`: the save request, then on an ok response the reset
        and a refetch with the current filter. */
    method HandleSubmit(env: Option<string>, session: Option<string>, answer: Answer, reply: ListReply)
      returns (req: HttpRequest, refetch: Option<HttpRequest>)
      modifies this
      ensures req == SaveRequest(env, old(editingJob), old(formData), session)
      ensures AnsweredOk(answer) ==>
        refetch == Some(ListRequest(env, old(filterStatus), session)) &&
        State() == PageFetch(AfterSave(old(State()), answer), reply)
      ensures !AnsweredOk(answer) ==> refetch == None && State() == AfterSave(old(State()), answer)
    {
      submitting := true;
      req := SaveRequest(env, editingJob, formData, session);
      refetch := None;
      if AnsweredOk(answer) {
        isModalOpen := false;
        editingJob := None;
        formData := DefaultForm;
        var r := FetchJobs(env, session, reply);
        refetch := Some(r);
      }
      submitting := false;
    }

    /** `handleDelete`: `confirmed` is the answer to `confirm(...)`. */
    method HandleDelete(env: Option<string>, session: Option<string>, id: int, confirmed: bool, answer: Answer)
      returns (req: Option<HttpRequest>)
      modifies this
      ensures req == if confirmed then Some(DeleteRequest(env, id, session)) else None
      ensures State() == AfterDelete(old(State()), id, confirmed, answer)
    {
      if !confirmed {
        return None;
      }
      req := Some(DeleteRequest(env, id, session));
      if AnsweredOk(answer) {
        jobs := Seqs.Keep(jobs, (job: Job) => job.id != id);
      }
    }

    method OpenEditModal(job: Job, toDateInput: string -> string)
      modifies this
      ensures State() == OpenEdit(old(State()), job, toDateInput)
    {
      editingJob := Some(job);
      formData := FormFromJob(job, toDateInput);
      isModalOpen := true;
    }

    method OpenAddModal()
      modifies this
      ensures State() == OpenAdd(old(State()))
    {
      editingJob := None;
      formData := DefaultForm;
      isModalOpen := true;
    }

    method SetModal(open: bool)
      modifies this
      ensures State() == SetModalOpen(old(State()), open)
    {
      isModalOpen := open;
    }

    /** A form input's `onChange`. */
    method Edit(field: Field, v: string)
      modifies this
      ensures State() == old(State()).(form := WithField(old(formData), field, v))
    {
      formData := WithField(formData, field, v);
    }

    /** `handleAuth`, the same handler as the auth screen's. */
    method HandleAuth(o: ProviderOutcome) returns (call: Option<ProviderCall>)
      modifies this
      ensures call == AuthCall(old(auth))
      ensures State() == old(State()).(auth := AfterAuth(old(auth), o))
    {
      auth := auth.(loading := true, error := None);
      if auth.view == Signup && auth.password != auth.confirm {
        auth := auth.(error := Some(MismatchMessage), loading := false);
        return None;
      }
      call := if auth.view == Login then Some(SignIn(auth.email, auth.password)) else Some(SignUp(auth.email, auth.password));
      auth := auth.(error := FailureMessage(o), loading := false);
    }

    /** The sign-in / sign-up toggle. */
    method ToggleAuthView()
      modifies this
      ensures State() == old(State()).(auth := Toggle(old(auth)))
    {
      auth := auth.(view := if auth.view == Login then Signup else Login, error := None);
    }
  }
}
