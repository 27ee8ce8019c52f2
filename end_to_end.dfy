/** What the client and the server do together: the credential each client
    sends and what `requireAuth` makes of it, what an edit sent from the
    form does to the stored row, and the list the dashboard shows under a
    status filter. */
module EndToEnd {
  import opened Wrappers
  import opened Strings
  import opened Schema
  import opened Http
  import opened AuthMiddleware
  import opened JobController
  import opened ClientTypes
  import opened ApiService
  import opened DashboardPage
  import opened StatsGrid
  import JobRoutes

  /** The `Authorization` value a header map carries, if any. */
  function AuthorizationOf(h: map<string, string>): Option<string> {
    if "Authorization" in h then Some(h["Authorization"]) else None
  }

  /** The service's bearer header gives the provider exactly the token. */
  lemma ServiceTokenReachesLookup(token: string, getUser: string -> Lookup)
    requires token != "" && ' ' !in token
    ensures RequireAuth(AuthorizationOf(GetHeaders(token)), getUser).queried == Some(token)
  {
    var header := "Bearer " + token;
    assert AuthorizationOf(GetHeaders(token)) == Some(header);
    assert header == "Bearer" + " " + token;
    TokenAfterScheme("Bearer", token);
    assert TokenOf(header) == Some(token);
  }

  /** Without a token the service sends no header and is refused before
      any lookup. */
  lemma NoTokenNoHeader(getUser: string -> Lookup)
    ensures RequireAuth(AuthorizationOf(GetHeaders("")), getUser) == Reject(NoHeaderMessage, None)
  {
  }

  /** Without a session the dashboard sends "Bearer undefined", and the
      provider is asked about the token "undefined". */
  lemma PageWithoutSessionAsksAboutUndefined(getUser: string -> Lookup)
    ensures RequireAuth(Some(BearerOf(None)), getUser).queried == Some("undefined")
  {
    var token := "undefined";
    assert ' ' !in token by {
      assert forall k :: 0 <= k < |token| ==> token[k] != ' ';
    }
    assert BearerOf(None) == "Bearer" + " " + token;
    TokenAfterScheme("Bearer", token);
    assert TokenOf(BearerOf(None)) == Some(token);
  }

  /** The body an edit sends: the form of the job as the client received
      it. The route's sanitizers trim its company and role before the
      handler sees it. */
  function EditBody(row: Row, render: Timestamp -> string, toDateInput: string -> string): Body {
    BodyOf(FormFromJob(JobOf(row, render), toDateInput))
  }

  /** Saving the edit form of a job without an applied date sends "" for
      the date, which is not date input, so the update fails. */
  lemma EditingUndatedJobFails(row: Row, render: Timestamp -> string, toDateInput: string -> string,
                               now: Timestamp, isDate: string -> bool)
    requires !Truthy(row.appliedDate) && !isDate("")
    ensures MergeRow(row, JobRoutes.Sanitized(EditBody(row, render, toDateInput)), now, isDate).Failure?
  {
  }

  /** Saving the edit form of a dated job unchanged keeps the status,
      stores company and role trimmed (which leaves the already trimmed
      values a create through the route stores, by `TrimIdempotent`), stores
      the date
      as the form shows it, and turns a null note or link into "". */
  lemma UnchangedEditNormalises(row: Row, render: Timestamp -> string, toDateInput: string -> string,
                                now: Timestamp, isDate: string -> bool)
    requires Truthy(row.appliedDate) && isDate(toDateInput(row.appliedDate.value))
    ensures var r := MergeRow(row, JobRoutes.Sanitized(EditBody(row, render, toDateInput)), now, isDate);
      && r.Success?
      && r.value.company == Trim(row.company) && r.value.role == Trim(row.role) && r.value.status == row.status
      && r.value.appliedDate == Some(toDateInput(row.appliedDate.value))
      && r.value.notes == Some(OrElse(row.notes, ""))
      && r.value.jobLink == Some(OrElse(row.jobLink, ""))
      && r.value.id == row.id && r.value.userId == row.userId && r.value.updatedAt == now
  {
    var f := FormFromJob(JobOf(row, render), toDateInput);
    StatusRoundTrip(row.status);
    assert ParseStatus(f.status) == Some(row.status);
  }

  /** The client's view of a list of rows. */
  function JobsOf(rows: seq<Row>, render: Timestamp -> string): (jobs: seq<Job>)
    ensures |jobs| == |rows|
    ensures forall i :: 0 <= i < |rows| ==> jobs[i] == JobOf(rows[i], render)
  {
    seq(|rows|, (i: int) requires 0 <= i < |rows| => JobOf(rows[i], render))
  }

  /** Under a status filter the server lists only that status, so on the
      dashboard that status's count is the length of the list and every
      other count is zero. */
  lemma FilteredDashboardCounts(rows: seq<Row>, caller: UserId, s: Status, render: Timestamp -> string, i: nat)
    requires i < |StatusOrder|
    ensures var jobs := JobsOf(SelectJobs(rows, caller, Some(StatusText(s)), None), render);
      && (StatusOrder[i] != s ==> StatCounts(jobs)[i] == 0)
      && (StatusOrder[i] == s ==> StatCounts(jobs)[i] == |jobs|)
  {
    var listed := SelectJobs(rows, caller, Some(StatusText(s)), None);
    var jobs := JobsOf(listed, render);
    forall j | j in jobs ensures j.status == s {
      var k :| 0 <= k < |jobs| && jobs[k] == j;
      StatusFilterIsExact(rows, caller, StatusText(s), listed[k]);
      StatusRoundTrip(s);
      StatusRoundTrip(listed[k].status);
    }
    FilteredCountsCollapse(jobs, s, i);
  }
}
