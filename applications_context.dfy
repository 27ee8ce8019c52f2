/** `ApplicationsContext.tsx`: the provider that holds the signed-in user's
    jobs. Its state is `jobs`, `loading`, `error` and the two refs
    `loadedRef` and `sessionTokenRef`; `StoreState` is that state as a value
    and the functions below are its transitions. `ApplicationsProvider`
    performs them step by step as the handlers do. Service results are
    parameters (the reply each call gets), and every handler runs to its
    end before the next one starts. The session is the current
    `session?.access_token` (None when signed out). */
module ApplicationsContext {
  import opened Wrappers
  import opened Strings
  import Seqs
  import opened ClientTypes
  import opened ApplicationsService

  const FetchFailedMessage: string := "Failed to load applications"

  datatype StoreState = StoreState(
    jobs: seq<Job>,
    loading: bool,
    error: Option<string>,
    loaded: bool,
    sessionToken: Option<string>)

  const InitialStore: StoreState := StoreState([], false, None, false, None)

  /** What `getAll` resolved to (None for a null body) or the message it
      threw. */
  type ListOutcome = Outcome<Option<seq<Job>>>

  /** What a `create`, `update` or `delete` call resolved to. */
  type CallOutcome = Outcome<()>

  /** The early return of `fetchJobs`: already loaded and not forced. */
  predicate FetchSkipped(s: StoreState, force: bool) {
    s.loaded && !force
  }

  /** `fetchJobs(token, { force, silent })`. A success replaces the jobs
      (null as []), marks them loaded and clears the error; a failure keeps
      jobs and `loaded` and records the message, and is not rethrown. A
      silent fetch leaves `loading` alone; any other ends with it false. */
  function Fetch(s: StoreState, force: bool, silent: bool, reply: ListOutcome): (t: StoreState)
    ensures FetchSkipped(s, force) ==> t == s
    ensures !FetchSkipped(s, force) ==>
      && t.sessionToken == s.sessionToken
      && t.loading == (if silent then s.loading else false)
      && (reply.Ok? ==> t.jobs == reply.value.GetOr([]) && t.loaded && t.error == None)
      && (reply.Fail? ==> t.jobs == s.jobs && t.loaded == s.loaded && t.error == Some(FetchFailedMessage))
  {
    if FetchSkipped(s, force) then s
    else
      var loading := if silent then s.loading else false;
      match reply
      case Ok(data) => s.(jobs := data.GetOr([]), loaded := true, error := None, loading := loading)
      case Fail(_) => s.(error := Some(FetchFailedMessage), loading := loading)
  }

  /** Once a fetch has succeeded, an unforced fetch changes nothing,
      whatever it would have received. */
  lemma LoadedFetchIsNoop(s: StoreState, force: bool, silent: bool, data: Option<seq<Job>>, silent2: bool, reply: ListOutcome)
    requires !FetchSkipped(s, force)
    ensures Fetch(Fetch(s, force, silent, Ok(data)), false, silent2, reply) == Fetch(s, force, silent, Ok(data))
  {
  }

  /** A failed load is tried again by the next unforced fetch. */
  lemma FailedLoadIsRetried(s: StoreState, force: bool, silent: bool, m: string)
    requires !s.loaded
    ensures !FetchSkipped(Fetch(s, force, silent, Fail(m)), false)
  {
  }

  /** The session effect's own writes: a new token resets `loaded` and is
      remembered; no session clears the jobs and forgets the token (the
      error and `loading` are left as they are). */
  function AfterSessionChange(s: StoreState, session: Option<string>): (t: StoreState)
    ensures Truthy(session) ==> t.sessionToken == session && t.jobs == s.jobs
    ensures Truthy(session) && s.sessionToken != session ==> !t.loaded
    ensures Truthy(session) && s.sessionToken == session ==> t == s
    ensures !Truthy(session) ==>
      t == s.(jobs := [], loaded := false, sessionToken := None)
  {
    if Truthy(session) then
      if s.sessionToken != session then s.(loaded := false, sessionToken := session) else s
    else s.(jobs := [], loaded := false, sessionToken := None)
  }

  /** Whether the effect starts a fetch. */
  predicate SessionFetches(s: StoreState, session: Option<string>) {
    Truthy(session) && !AfterSessionChange(s, session).loaded
  }

  /** The session effect, including the unforced, non-silent fetch it
      starts. */
  function SessionEffect(s: StoreState, session: Option<string>, reply: ListOutcome): (t: StoreState)
    ensures SessionFetches(s, session) <==> Truthy(session) && (s.sessionToken != session || !s.loaded)
    ensures Truthy(session) ==> t.sessionToken == session
    ensures Truthy(session) && !SessionFetches(s, session) ==> t == s
    ensures SessionFetches(s, session) && reply.Ok? ==>
      t.jobs == reply.value.GetOr([]) && t.loaded && t.error == None && !t.loading
    ensures SessionFetches(s, session) && reply.Fail? ==>
      t.jobs == s.jobs && !t.loaded && t.error == Some(FetchFailedMessage) && !t.loading
    ensures !Truthy(session) ==> t == s.(jobs := [], loaded := false, sessionToken := None)
  {
    var t := AfterSessionChange(s, session);
    if SessionFetches(s, session) then Fetch(t, false, false, reply) else t
  }

  /** A new token always leads to a fetch. */
  lemma NewTokenFetches(s: StoreState, token: string)
    requires token != "" && s.sessionToken != Some(token)
    ensures SessionFetches(s, Some(token))
  {
  }

  /** The same token with the jobs loaded starts nothing and changes
      nothing. */
  lemma SameTokenIsQuiet(s: StoreState, reply: ListOutcome)
    requires s.loaded && Truthy(s.sessionToken)
    ensures !SessionFetches(s, s.sessionToken)
    ensures SessionEffect(s, s.sessionToken, reply) == s
  {
  }

  /** Signing in loads once: running the effect again for the same session
      after a successful load fetches nothing. */
  lemma SignInLoadsOnce(s: StoreState, token: string, data: Option<seq<Job>>, reply: ListOutcome)
    requires token != ""
    ensures var t := SessionEffect(s, Some(token), Ok(data));
      !SessionFetches(t, Some(token)) && SessionEffect(t, Some(token), reply) == t
  {
  }

  /** Signing out empties the list and forgets the token and the load, but
      keeps the last error. */
  lemma SignOutClears(s: StoreState, reply: ListOutcome)
    ensures var t := SessionEffect(s, None, reply);
      t.jobs == [] && !t.loaded && t.sessionToken == None && t.error == s.error && t.loading == s.loading
  {
  }

  /** When the first load for a new user fails, the previous user's jobs
      stay in the list beside the error. */
  lemma FailedSwitchKeepsPreviousJobs(s: StoreState, token: string, m: string)
    requires token != "" && s.sessionToken != Some(token)
    ensures SessionEffect(s, Some(token), Fail(m)).jobs == s.jobs
    ensures SessionEffect(s, Some(token), Fail(m)).error == Some(FetchFailedMessage)
  {
  }

  /** `refreshJobs`: a forced, silent fetch, or nothing without a session. */
  function Refresh(s: StoreState, session: Option<string>, reply: ListOutcome): (t: StoreState)
    ensures !Truthy(session) ==> t == s
    ensures Truthy(session) ==> t == Fetch(s, true, true, reply) && t.loading == s.loading
  {
    if !Truthy(session) then s else Fetch(s, true, true, reply)
  }

  /** The new state of a handler and the error it rethrows, if any. */
  datatype Step = Step(state: StoreState, thrown: Option<string>)

  /** `addJob` and `updateJob`: the service call, then a refresh. Only the
      service call's failure is rethrown, and it leaves the state alone;
      a failed refresh is recorded by `fetchJobs` and not rethrown. */
  function SaveThenRefresh(s: StoreState, session: Option<string>, saved: CallOutcome, reply: ListOutcome): (r: Step)
    ensures r.thrown.Some? <==> Truthy(session) && saved.Fail?
    ensures r.thrown.Some? ==> r.thrown == Some(saved.message) && r.state == s
    ensures r.thrown.None? ==> r.state == Refresh(s, session, reply)
  {
    if !Truthy(session) then Step(s, None)
    else match saved
      case Fail(m) => Step(s, Some(m))
      case Ok(_) => Step(Refresh(s, session, reply), None)
  }

  /** `deleteJob`: on success the jobs with that id go, the others stay in
      order; on failure nothing changes and the error is rethrown. There is
      no refetch. */
  function DeleteStep(s: StoreState, session: Option<string>, id: int, deleted: CallOutcome): (r: Step)
    ensures !Truthy(session) ==> r == Step(s, None)
    ensures Truthy(session) && deleted.Fail? ==> r == Step(s, Some(deleted.message))
    ensures Truthy(session) && deleted.Ok? ==>
      r.thrown == None && r.state == s.(jobs := Seqs.Keep(s.jobs, (j: Job) => j.id != id))
  {
    if !Truthy(session) then Step(s, None)
    else match deleted
      case Fail(m) => Step(s, Some(m))
      case Ok(_) => Step(s.(jobs := Seqs.Keep(s.jobs, (j: Job) => j.id != id)), None)
  }

  /** A successful delete keeps exactly the jobs with another id. */
  lemma DeleteKeepsExactlyOthers(s: StoreState, session: Option<string>, id: int, x: Job)
    requires Truthy(session)
    ensures x in DeleteStep(s, session, id, Ok(())).state.jobs <==> x in s.jobs && x.id != id
    ensures |DeleteStep(s, session, id, Ok(())).state.jobs| <= |s.jobs|
  {
  }

  /** Deleting the same id twice is deleting it once. */
  lemma DeleteTwiceIsOnce(s: StoreState, session: Option<string>, id: int)
    requires Truthy(session)
    ensures DeleteStep(DeleteStep(s, session, id, Ok(())).state, session, id, Ok(())).state ==
            DeleteStep(s, session, id, Ok(())).state
  {
    Seqs.KeepIdempotent(s.jobs, (j: Job) => j.id != id);
  }

  class ApplicationsProvider {
    var jobs: seq<Job>
    var loading: bool
    var error: Option<string>
    var loadedRef: bool
    var sessionTokenRef: Option<string>

    function State(): StoreState
      reads this
    {
      StoreState(jobs, loading, error, loadedRef, sessionTokenRef)
    }

    constructor()
      ensures State() == InitialStore
    {
      jobs := [];
      loading := false;
      error := None;
      loadedRef := false;
      sessionTokenRef := None;
    }

    /** `fetchJobs`: issues `getAll` unless skipped. */
    method FetchJobs(token: string, force: bool, silent: bool, reply: ListOutcome) returns (call: Option<ServiceCall>)
      modifies this
      ensures State() == Fetch(old(State()), force, silent, reply)
      ensures call == if FetchSkipped(old(State()), force) then None else Some(GetAll(token))
    {
      if loadedRef && !force {
        return None;
      }
      if !silent {
        loading := true;
      }
      error := None;
      call := Some(GetAll(token));
      match reply {
        case Ok(data) =>
          jobs := data.GetOr([]);
          loadedRef := true;
        case Fail(_) =>
          error := Some(FetchFailedMessage);
      }
      if !silent {
        loading := false;
      }
    }

    /** The effect on `session`. */
    method OnSession(session: Option<string>, reply: ListOutcome) returns (call: Option<ServiceCall>)
      modifies this
      ensures State() == SessionEffect(old(State()), session, reply)
      ensures call == if SessionFetches(old(State()), session) then Some(GetAll(session.value)) else None
    {
      call := None;
      if Truthy(session) {
        if sessionTokenRef != session {
          loadedRef := false;
          sessionTokenRef := session;
        }
        if !loadedRef {
          call := FetchJobs(session.value, false, false, reply);
        }
      } else {
        jobs := [];
        loadedRef := false;
        sessionTokenRef := None;
      }
    }

    /** `refreshJobs`. */
    method RefreshJobs(session: Option<string>, reply: ListOutcome) returns (call: Option<ServiceCall>)
      modifies this
      ensures State() == Refresh(old(State()), session, reply)
      ensures call == if Truthy(session) then Some(GetAll(session.value)) else None
    {
      if !Truthy(session) {
        return None;
      }
      call := FetchJobs(session.value, true, true, reply);
    }

    /** `addJob`: `create`, then `refreshJobs`. */
    method AddJob(session: Option<string>, data: FormData, created: CallOutcome, reply: ListOutcome)
      returns (calls: seq<ServiceCall>, thrown: Option<string>)
      modifies this
      ensures Step(State(), thrown) == SaveThenRefresh(old(State()), session, created, reply)
      ensures !Truthy(session) ==> calls == []
      ensures Truthy(session) ==>
        calls == [Create(data, session.value)] + (if created.Ok? then [GetAll(session.value)] else [])
    {
      calls, thrown := SaveAndRefresh(session, Create(data, OrElse(session, "")), created, reply);
    }

    /** `updateJob`: `update`, then `refreshJobs`. */
    method UpdateJob(session: Option<string>, id: int, data: FormData, updated: CallOutcome, reply: ListOutcome)
      returns (calls: seq<ServiceCall>, thrown: Option<string>)
      modifies this
      ensures Step(State(), thrown) == SaveThenRefresh(old(State()), session, updated, reply)
      ensures !Truthy(session) ==> calls == []
      ensures Truthy(session) ==>
        calls == [Update(id, data, session.value)] + (if updated.Ok? then [GetAll(session.value)] else [])
    {
      calls, thrown := SaveAndRefresh(session, Update(id, data, OrElse(session, "")), updated, reply);
    }

    /** The body `addJob` and `updateJob` share: the call, and the refresh
        when it resolved. */
    method SaveAndRefresh(session: Option<string>, save: ServiceCall, saved: CallOutcome, reply: ListOutcome)
      returns (calls: seq<ServiceCall>, thrown: Option<string>)
      modifies this
      ensures Step(State(), thrown) == SaveThenRefresh(old(State()), session, saved, reply)
      ensures !Truthy(session) ==> calls == []
      ensures Truthy(session) ==> calls == [save] + (if saved.Ok? then [GetAll(session.value)] else [])
    {
      if !Truthy(session) {
        return [], None;
      }
      calls := [save];
      if saved.Fail? {
        return calls, Some(saved.message);
      }
      var refresh := RefreshJobs(session, reply);
      calls := calls + [refresh.value];
      thrown := None;
    }

    /** `deleteJob`. */
    method DeleteJob(session: Option<string>, id: int, deleted: CallOutcome)
      returns (calls: seq<ServiceCall>, thrown: Option<string>)
      modifies this
      ensures Step(State(), thrown) == DeleteStep(old(State()), session, id, deleted)
      ensures calls == if Truthy(session) then [Remove(id, session.value)] else []
    {
      if !Truthy(session) {
        return [], None;
      }
      calls := [Remove(id, session.value)];
      match deleted {
        case Fail(m) =>
          thrown := Some(m);
        case Ok(_) =>
          jobs := Seqs.Keep(jobs, (j: Job) => j.id != id);
          thrown := None;
      }
    }
  }
}
