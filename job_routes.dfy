/** `jobRoutes.js`: the `jobValidation` chain and the router that puts
    `requireAuth` in front of the four handlers. POST and PATCH run the
    chain; only `createJob` looks at its result. `isUrl` stands for the
    validator's `isURL`, `isDate` and `integerInput` for PostgreSQL's date
    and integer input (a path id that is not an integer makes the query
    fail). */
module JobRoutes {
  import opened Wrappers
  import opened Strings
  import opened Schema
  import opened Http
  import opened AuthMiddleware
  import opened JobController

  const CompanyMessage: string := "Company name is required"
  const RoleMessage: string := "Role/Position is required"
  const StatusMessage: string := "Status must be Applied, Interview, Offer, or Rejected"
  const LinkMessage: string := "Job link must be a valid URL"

  const CompanyError: FieldError := FieldError("company", CompanyMessage)
  const RoleError: FieldError := FieldError("role", RoleMessage)
  const StatusError: FieldError := FieldError("status", StatusMessage)
  const LinkError: FieldError := FieldError("job_link", LinkMessage)

  /** The string a validator sees: a missing or null field reads as "". */
  function Seen(v: Option<string>): string {
    v.GetOr("")
  }

  /** Where a field's rule sits in the chain. */
  function RulePosition(e: FieldError): nat {
    if e.path == "company" then 0
    else if e.path == "role" then 1
    else if e.path == "status" then 2
    else 3
  }

  /** Each rule's error sits at its own position, so the four differ. */
  lemma RulePositions()
    ensures RulePosition(CompanyError) == 0 && RulePosition(RoleError) == 1
    ensures RulePosition(StatusError) == 2 && RulePosition(LinkError) == 3
  {
  }

  /** `validationResult(req).array()` after `jobValidation`: one error per
      failing rule, in the order of the chain. Company and role must be
      non-empty, the status one of the four values (so a missing status
      fails), and a job link is checked only when it is truthy. */
  function JobValidation(b: Body, isUrl: string -> bool): (errors: seq<FieldError>)
    ensures CompanyError in errors <==> Seen(b.company) == ""
    ensures RoleError in errors <==> Seen(b.role) == ""
    ensures StatusError in errors <==> ParseStatus(Seen(b.status)).None?
    ensures LinkError in errors <==> Truthy(b.jobLink) && !isUrl(b.jobLink.value)
    ensures forall e :: e in errors ==> e in [CompanyError, RoleError, StatusError, LinkError]
    ensures forall i, j :: 0 <= i < j < |errors| ==> RulePosition(errors[i]) < RulePosition(errors[j])
  {
    RulePositions();
    (if Seen(b.company) == "" then [CompanyError] else []) +
    (if Seen(b.role) == "" then [RoleError] else []) +
    (if ParseStatus(Seen(b.status)).None? then [StatusError] else []) +
    (if Truthy(b.jobLink) && !isUrl(b.jobLink.value) then [LinkError] else [])
  }

  /** Each rule reports at most once, so there are at most four errors, and
      none exactly when every rule passes. */
  lemma ValidationCount(b: Body, isUrl: string -> bool)
    ensures |JobValidation(b, isUrl)| <= 4
    ensures JobValidation(b, isUrl) == [] <==>
      Seen(b.company) != "" && Seen(b.role) != "" && ParseStatus(Seen(b.status)).Some? &&
      (Truthy(b.jobLink) ==> isUrl(b.jobLink.value))
  {
    var errors := JobValidation(b, isUrl);
    if errors != [] {
      assert errors[0] in errors;
    }
  }

  /** The chain's two sanitizers, `.trim()` after the company and role
      rules. Like express-validator's standard sanitizers, they read a
      missing or null field as "" and write the trimmed string back, so the
      handler always receives both fields. Validation itself sees the body
      as sent. */
  function Sanitized(b: Body): (c: Body)
    ensures c.company == Some(Trim(Seen(b.company))) && c.role == Some(Trim(Seen(b.role)))
    ensures c.status == b.status && c.appliedDate == b.appliedDate
    ensures c.notes == b.notes && c.jobLink == b.jobLink
  {
    b.(company := Some(Trim(Seen(b.company))), role := Some(Trim(Seen(b.role))))
  }

  /** Sanitizing a sanitized body changes nothing. */
  lemma SanitizeIdempotent(b: Body)
    ensures Sanitized(Sanitized(b)) == Sanitized(b)
  {
    TrimIdempotent(Seen(b.company));
    TrimIdempotent(Seen(b.role));
  }

  /** `notEmpty` runs before `trim`: a company of white space passes its
      rule, and a create that then succeeds stores "". */
  lemma BlankCompanyIsStoredEmpty(id: nat, caller: UserId, b: Body, now: Timestamp,
                                  isUrl: string -> bool, isDate: string -> bool)
    requires Truthy(b.company) && forall k :: 0 <= k < |b.company.value| ==> IsJsWhitespace(b.company.value[k])
    ensures CompanyError !in JobValidation(b, isUrl)
    ensures NewJobRow(id, caller, Sanitized(b), now, isDate).Success? ==>
      NewJobRow(id, caller, Sanitized(b), now, isDate).value.company == ""
  {
    BlankTrimsEmpty(b.company.value);
    RulePositions();
  }

  /** Through the route, a PATCH that leaves out company and role blanks
      both columns: the sanitizers turn the missing fields into "", which
      `COALESCE` takes. */
  lemma RoutePatchBlanksCompanyAndRole(row: Row, notes: string, now: Timestamp, isDate: string -> bool)
    ensures MergeRow(row, Sanitized(EmptyBody), now, isDate) ==
            Success(row.(company := "", role := "", updatedAt := now))
    ensures MergeRow(row, Sanitized(EmptyBody.(notes := Some(notes))), now, isDate) ==
            Success(row.(company := "", role := "", notes := Some(notes), updatedAt := now))
  {
    BlankTrimsEmpty("");
  }

  /** A body that passes the chain always carries one of the four statuses,
      so `createJob`'s "Applied" fallback is never used through this route. */
  lemma ValidatedStatusIsPresent(b: Body, isUrl: string -> bool)
    requires JobValidation(b, isUrl) == []
    ensures Truthy(b.status) && ParseStatus(b.status.value).Some?
  {
    assert StatusError !in JobValidation(b, isUrl);
  }

  /** A body that passes the chain is inserted, unless its date text is not
      date input; the row holds the body's company and role trimmed, and its
      status. */
  lemma ValidatedBodyInserts(id: nat, caller: UserId, b: Body, now: Timestamp, isUrl: string -> bool, isDate: string -> bool)
    requires JobValidation(b, isUrl) == []
    requires Truthy(b.appliedDate) ==> isDate(b.appliedDate.value)
    ensures NewJobRow(id, caller, Sanitized(b), now, isDate).Success?
    ensures var r := NewJobRow(id, caller, Sanitized(b), now, isDate).value;
      r.company == Trim(b.company.value) && r.role == Trim(b.role.value) && b.status == Some(StatusText(r.status))
  {
    ValidatedStatusIsPresent(b, isUrl);
    assert CompanyError !in JobValidation(b, isUrl);
    assert RoleError !in JobValidation(b, isUrl);
  }

  /** A status passes only when it is exactly one of the four values. */
  lemma StatusRuleIsExact(b: Body, isUrl: string -> bool)
    ensures StatusError !in JobValidation(b, isUrl) <==>
      b.status in {Some("Applied"), Some("Interview"), Some("Offer"), Some("Rejected")}
  {
  }

  datatype Verb = Get | Post | Patch | Delete

  /** An API request: the method, the `Authorization` header, the `:id`
      path segment, the JSON body and the `status` and `search` query
      parameters. */
  datatype Request = Request(
    verb: Verb,
    authorization: Option<string>,
    pathId: string,
    body: Body,
    status: Option<string>,
    search: Option<string>)

  /** The errors a verb's rule set produces: POST and PATCH carry
      `jobValidation`, GET and DELETE no rules. */
  function RouteErrors(req: Request, isUrl: string -> bool): (errors: seq<FieldError>)
    ensures req.verb in {Get, Delete} ==> errors == []
    ensures req.verb in {Post, Patch} ==> errors == JobValidation(req.body, isUrl)
  {
    if req.verb == Post || req.verb == Patch then JobValidation(req.body, isUrl) else []
  }

  /** The router: `requireAuth` first, then the verb's rules, sanitizers and
      handler. A
      rejected request changes nothing; an authenticated one can change only
      the caller's rows. GET changes nothing; a POST with field errors is
      answered 400, a valid one appends `NewJobRow`'s row and answers 201,
      or answers 500 when the insert fails; a PATCH reaches `updateJob`
      whatever its field errors. */
  method Handle(store: JobStore, req: Request, getUser: string -> Lookup, isUrl: string -> bool,
                isDate: string -> bool, integerInput: string -> Option<int>, now: Timestamp)
    returns (res: Response, auth: AuthResult)
    requires store.Valid()
    modifies store
    ensures store.Valid()
    ensures auth == RequireAuth(req.authorization, getUser)
    ensures auth.nextCalls == 0 ==>
      Some(res) == auth.response && store.rows == old(store.rows) && store.nextId == old(store.nextId)
    ensures auth.nextCalls == 1 ==>
      forall u :: u != auth.reqUser.value.id ==> OwnedBy(store.rows, u) == OwnedBy(old(store.rows), u)
    ensures req.verb != Post ==> store.nextId == old(store.nextId)
    ensures req.verb == Get ==> store.rows == old(store.rows)
    ensures req.verb == Get && auth.nextCalls == 1 ==>
      res == Response(200, RowsJson(SelectJobs(old(store.rows), auth.reqUser.value.id, req.status, req.search)))
    ensures req.verb == Post && auth.nextCalls == 1 && JobValidation(req.body, isUrl) != [] ==>
      res == Response(400, ErrorsJson(JobValidation(req.body, isUrl))) && store.rows == old(store.rows)
    ensures req.verb == Post && auth.nextCalls == 1 && JobValidation(req.body, isUrl) == [] ==>
      match NewJobRow(old(store.nextId), auth.reqUser.value.id, Sanitized(req.body), now, isDate)
      case Success(r) => store.rows == old(store.rows) + [r] && res == Response(201, RowJson(r))
      case Failure(_) => store.rows == old(store.rows) && res == InternalError
    ensures req.verb == Patch && auth.nextCalls == 1 ==>
      var caller := auth.reqUser.value.id;
      match integerInput(req.pathId)
      case None => res == InternalError && store.rows == old(store.rows)
      case Some(id) =>
        match FindOwned(old(store.rows), id, caller)
        case None => res == Response(404, ErrorJson(NotFoundMessage)) && store.rows == old(store.rows)
        case Some(i) =>
          match MergeRow(old(store.rows)[i], Sanitized(req.body), now, isDate)
          case Success(r) => store.rows == old(store.rows)[i := r] && res == Response(200, RowJson(r))
          case Failure(_) => store.rows == old(store.rows) && res == InternalError
    ensures req.verb == Delete && auth.nextCalls == 1 ==>
      var caller := auth.reqUser.value.id;
      match integerInput(req.pathId)
      case None => res == InternalError && store.rows == old(store.rows)
      case Some(id) =>
        store.rows == RemoveOwned(old(store.rows), id, caller) &&
        (res == Response(404, ErrorJson(NotFoundMessage)) <==> FindOwned(old(store.rows), id, caller).None?)
  {
    auth := RequireAuth(req.authorization, getUser);
    if auth.nextCalls == 0 {
      res := auth.response.value;
      return;
    }
    var caller := auth.reqUser.value.id;
    var errors := RouteErrors(req, isUrl);
    var body := Sanitized(req.body);
    ghost var before, beforeId := store.rows, store.nextId;
    match req.verb
    case Get =>
      res := store.GetJobs(caller, req.status, req.search);
    case Post =>
      res := store.CreateJob(errors, caller, body, now, isDate);
      forall u | u != caller ensures OwnedBy(store.rows, u) == OwnedBy(before, u) {
        var inserted := NewJobRow(beforeId, caller, body, now, isDate);
        if errors == [] && inserted.Success? {
          InsertKeepsOthers(before, inserted.value, u);
        }
      }
    case Patch =>
      var id := integerInput(req.pathId);
      if id.None? {
        res := InternalError;
      } else {
        res := store.UpdateJob(caller, id.value, body, now, isDate);
        forall u | u != caller ensures OwnedBy(store.rows, u) == OwnedBy(before, u) {
          var found := FindOwned(before, id.value, caller);
          if found.Some? {
            var merged := MergeRow(before[found.value], body, now, isDate);
            if merged.Success? {
              UpdateKeepsOthers(before, found.value, merged.value, u);
            }
          }
        }
      }
    case Delete =>
      var id := integerInput(req.pathId);
      if id.None? {
        res := InternalError;
      } else {
        res := store.DeleteJob(caller, id.value);
        forall u | u != caller ensures OwnedBy(store.rows, u) == OwnedBy(before, u) {
          RemoveKeepsOthers(before, id.value, caller, u);
        }
      }
  }
}
