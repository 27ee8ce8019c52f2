/** The four handlers of `jobController.js` over the `job_applications`
    table. The table is a `JobStore` object whose `rows` the handlers
    replace; each handler is specified by the pure functions above it, and
    what the handlers promise (owner scoping, filters and order of the list,
    the COALESCE merge, not-found answers, isolation between users) is
    proved about those functions. The caller is the `req.user.id` the auth
    middleware set; field errors come from the route's validator chain. */
module JobController {
  import opened Wrappers
  import opened Strings
  import Seqs
  import opened Schema
  import opened Http
  import opened Ilike

  const NotFoundMessage: string := "Job application not found"
  const DeletedMessage: string := "Job application deleted successfully"

  // ---------------------------------------------------------------- create

  /** The INSERT of `createJob`: owned by the caller, a falsy status sent as
      "Applied", a falsy date, notes or link sent as NULL, and company and
      role sent as they are. */
  function NewJobRow(id: nat, caller: UserId, b: Body, now: Timestamp, isDate: string -> bool): (r: Result<Row, DbError>)
    ensures r.Success? <==>
      b.company.Some? && b.role.Some? &&
      (Truthy(b.status) ==> ParseStatus(b.status.value).Some?) &&
      (Truthy(b.appliedDate) ==> isDate(b.appliedDate.value))
    ensures r.Success? ==>
      && r.value.id == id && r.value.userId == caller
      && Some(r.value.company) == b.company && Some(r.value.role) == b.role
      && (Truthy(b.status) ==> Some(StatusText(r.value.status)) == b.status)
      && (!Truthy(b.status) ==> r.value.status == Applied)
      && r.value.appliedDate == OrNull(b.appliedDate)
      && r.value.notes == OrNull(b.notes)
      && r.value.jobLink == OrNull(b.jobLink)
      && r.value.createdAt == now && r.value.updatedAt == now
  {
    InsertRow(id, caller, b.company, b.role, Some(OrElse(b.status, "Applied")),
              OrNull(b.appliedDate), OrNull(b.notes), OrNull(b.jobLink), now, isDate)
  }

  /** Adding a row of `caller` leaves every other user's rows as they were. */
  lemma InsertKeepsOthers(rows: seq<Row>, r: Row, u: UserId)
    requires r.userId != u
    ensures OwnedBy(rows + [r], u) == OwnedBy(rows, u)
  {
    var p := (x: Row) => x.userId == u;
    Seqs.KeepConcat(rows, [r], p);
    assert Seqs.Keep([r], p) == [] + Seqs.Keep([r][1..], p);
  }

  // ---------------------------------------------------------------- list

  /** One `AND` term of the `WHERE` clause `getJobs` builds, naming the
      placeholder `$param` it reads. */
  datatype Condition =
    | OwnerIs(param: nat)              // user_id = $param
    | StatusIs(param: nat)             // status = $param
    | CompanyOrRoleILike(param: nat)   // (company ILIKE $param OR role ILIKE $param)

  /** A term holds for a row under the bound parameters (an unbound
      placeholder holds for nothing). */
  predicate Holds(c: Condition, params: seq<string>, r: Row) {
    && 1 <= c.param <= |params|
    && match c
       case OwnerIs(k) => r.userId == params[k - 1]
       case StatusIs(k) => StatusText(r.status) == params[k - 1]
       case CompanyOrRoleILike(k) => ILike(r.company, params[k - 1]) || ILike(r.role, params[k - 1])
  }

  predicate AllHold(conds: seq<Condition>, params: seq<string>, r: Row) {
    forall i :: 0 <= i < |conds| ==> Holds(conds[i], params, r)
  }

  /** The rows `getJobs` means to return: the caller's, with the status when
      one is given, and with company or role matching `%search%` when a
      search is given. Empty parameters are no filter. */
  predicate Matches(r: Row, caller: UserId, status: Option<string>, search: Option<string>) {
    && r.userId == caller
    && (Truthy(status) ==> StatusText(r.status) == status.value)
    && (Truthy(search) ==> ILike(r.company, SearchPattern(search.value)) || ILike(r.role, SearchPattern(search.value)))
  }

  /** The query text of `getJobs`, built as the handler builds it: terms
      appended one by one with a running placeholder index. Every
      placeholder is bound, and the `WHERE` clause selects exactly the rows
      `Matches` describes. */
  method BuildQuery(caller: UserId, status: Option<string>, search: Option<string>)
    returns (conds: seq<Condition>, params: seq<string>)
    ensures forall i :: 0 <= i < |conds| ==> 1 <= conds[i].param <= |params|
    ensures |conds| >= 1 && conds[0] == OwnerIs(1) && params[0] == caller
    ensures |conds| == |params| == 1 + (if Truthy(status) then 1 else 0) + (if Truthy(search) then 1 else 0)
    ensures Truthy(status) ==> conds[1] == StatusIs(2) && params[1] == status.value
    ensures Truthy(search) ==>
      conds[|conds| - 1] == CompanyOrRoleILike(|params|) && params[|params| - 1] == SearchPattern(search.value)
    ensures forall r :: AllHold(conds, params, r) <==> Matches(r, caller, status, search)
  {
    conds := [OwnerIs(1)];
    params := [caller];
    var paramIndex := 2;
    if Truthy(status) {
      conds := conds + [StatusIs(paramIndex)];
      params := params + [status.value];
      paramIndex := paramIndex + 1;
    }
    if Truthy(search) {
      conds := conds + [CompanyOrRoleILike(paramIndex)];
      params := params + [SearchPattern(search.value)];
      paramIndex := paramIndex + 1;
    }
    forall r ensures AllHold(conds, params, r) <==> Matches(r, caller, status, search) {
      assert Holds(conds[0], params, r) <==> r.userId == caller;
      if Truthy(status) {
        assert Holds(conds[1], params, r) <==> StatusText(r.status) == status.value;
      }
      if Truthy(search) {
        assert Holds(conds[|conds| - 1], params, r) <==>
          ILike(r.company, SearchPattern(search.value)) || ILike(r.role, SearchPattern(search.value));
      }
    }
  }

  /** `ORDER BY created_at DESC`. */
  predicate NewestFirst(rows: seq<Row>) {
    forall i, j :: 0 <= i < j < |rows| ==> rows[i].createdAt >= rows[j].createdAt
  }

  function InsertNewestFirst(r: Row, sorted: seq<Row>): (t: seq<Row>)
    requires NewestFirst(sorted)
    ensures NewestFirst(t)
    ensures multiset(t) == multiset(sorted) + multiset{r}
  {
    if sorted == [] || r.createdAt >= sorted[0].createdAt then
      assert forall x :: x in sorted ==> x.createdAt <= r.createdAt by {
        forall x | x in sorted ensures x.createdAt <= r.createdAt {
          var j :| 0 <= j < |sorted| && sorted[j] == x;
          assert sorted[0].createdAt >= sorted[j].createdAt;
        }
      }
      PrependNewest(r, sorted);
      [r] + sorted
    else
      var rest := InsertNewestFirst(r, sorted[1..]);
      InsertBelowHead(r, sorted, rest);
      [sorted[0]] + rest
  }

  /** A row no older than any row of a sorted list can go in front of it. */
  lemma PrependNewest(h: Row, rest: seq<Row>)
    requires NewestFirst(rest)
    requires forall x :: x in rest ==> x.createdAt <= h.createdAt
    ensures NewestFirst([h] + rest)
  {
    forall i, j | 0 <= i < j < |[h] + rest| ensures ([h] + rest)[i].createdAt >= ([h] + rest)[j].createdAt {
      assert ([h] + rest)[j] == rest[j - 1] && rest[j - 1] in rest;
      if i > 0 {
        assert ([h] + rest)[i] == rest[i - 1];
      }
    }
  }

  /** The step of `InsertNewestFirst` that keeps the head and inserts into
      the tail. */
  lemma InsertBelowHead(r: Row, sorted: seq<Row>, rest: seq<Row>)
    requires NewestFirst(sorted) && sorted != [] && r.createdAt < sorted[0].createdAt
    requires NewestFirst(rest) && multiset(rest) == multiset(sorted[1..]) + multiset{r}
    ensures NewestFirst([sorted[0]] + rest)
    ensures multiset([sorted[0]] + rest) == multiset(sorted) + multiset{r}
  {
    assert sorted == [sorted[0]] + sorted[1..];
    forall x | x in rest ensures x.createdAt <= sorted[0].createdAt {
      assert x in multiset(rest);
      if x != r {
        assert x in multiset(sorted[1..]);
        var j :| 0 <= j < |sorted[1..]| && sorted[1..][j] == x;
        assert sorted[j + 1] == x;
      }
    }
    PrependNewest(sorted[0], rest);
  }

  /** The sort of the result: newest first, and the same rows. */
  function SortNewestFirst(rows: seq<Row>): (t: seq<Row>)
    ensures NewestFirst(t)
    ensures multiset(t) == multiset(rows)
  {
    if rows == [] then []
    else
      assert rows == [rows[0]] + rows[1..];
      InsertNewestFirst(rows[0], SortNewestFirst(rows[1..]))
  }

  /** What `getJobs` returns: the matching rows of the table, each as often
      as the table has it, newest first. */
  function SelectJobs(rows: seq<Row>, caller: UserId, status: Option<string>, search: Option<string>): (res: seq<Row>)
    ensures NewestFirst(res)
    ensures multiset(res) == multiset(Seqs.Keep(rows, (r: Row) => Matches(r, caller, status, search)))
  {
    SortNewestFirst(Seqs.Keep(rows, (r: Row) => Matches(r, caller, status, search)))
  }

  /** A row is listed exactly when it is in the table and matches. */
  lemma ListedIffMatches(rows: seq<Row>, caller: UserId, status: Option<string>, search: Option<string>, x: Row)
    ensures x in SelectJobs(rows, caller, status, search) <==> x in rows && Matches(x, caller, status, search)
  {
    var kept := Seqs.Keep(rows, (r: Row) => Matches(r, caller, status, search));
    var listed := SelectJobs(rows, caller, status, search);
    assert x in listed <==> x in multiset(listed);
    assert x in kept <==> x in multiset(kept);
  }

  /** Whatever the filters, only the caller's rows are listed. */
  lemma ListsOnlyOwnRows(rows: seq<Row>, caller: UserId, status: Option<string>, search: Option<string>)
    ensures forall x :: x in SelectJobs(rows, caller, status, search) ==> x in rows && x.userId == caller
  {
    forall x | x in SelectJobs(rows, caller, status, search) ensures x in rows && x.userId == caller {
      ListedIffMatches(rows, caller, status, search, x);
    }
  }

  /** Without filters the list is the caller's rows, all of them. */
  lemma UnfilteredListIsOwnRows(rows: seq<Row>, caller: UserId)
    ensures multiset(SelectJobs(rows, caller, None, None)) == multiset(OwnedBy(rows, caller))
  {
    Seqs.KeepCongruent(rows, (r: Row) => Matches(r, caller, None, None), (x: Row) => x.userId == caller);
  }

  /** With a status, the list holds exactly the caller's rows with that
      status (and, without a search, all of them). */
  lemma StatusFilterIsExact(rows: seq<Row>, caller: UserId, status: string, x: Row)
    requires status != ""
    ensures x in SelectJobs(rows, caller, Some(status), None) <==>
            x in rows && x.userId == caller && StatusText(x.status) == status
  {
    ListedIffMatches(rows, caller, Some(status), None, x);
  }

  /** A status outside the four values lists nothing. */
  lemma UnknownStatusListsNothing(rows: seq<Row>, caller: UserId, status: string)
    requires status != "" && ParseStatus(status).None?
    ensures SelectJobs(rows, caller, Some(status), None) == []
  {
    forall x | x in rows ensures !Matches(x, caller, Some(status), None) {
      StatusRoundTrip(x.status);
    }
    Seqs.KeepNone(rows, (r: Row) => Matches(r, caller, Some(status), None));
  }

  /** With a search term free of `%` and `_`, the list holds exactly the
      caller's rows whose company or role contains the term, ignoring ASCII
      case. */
  lemma SearchIsCaseInsensitiveSubstring(rows: seq<Row>, caller: UserId, term: string, x: Row)
    requires term != "" && NoWildcards(term)
    ensures x in SelectJobs(rows, caller, None, Some(term)) <==>
            x in rows && x.userId == caller &&
            (ContainsText(Lower(x.company), Lower(term)) || ContainsText(Lower(x.role), Lower(term)))
  {
    ListedIffMatches(rows, caller, None, Some(term), x);
    ILikeContains(x.company, term);
    ILikeContains(x.role, term);
  }

  /** Another user's rows are never listed, and listing the caller's rows
      does not depend on what anybody else stores. */
  lemma ListIgnoresOtherUsers(rows: seq<Row>, other: Row, caller: UserId, status: Option<string>, search: Option<string>)
    requires other.userId != caller
    ensures multiset(SelectJobs(rows + [other], caller, status, search)) == multiset(SelectJobs(rows, caller, status, search))
  {
    var p := (r: Row) => Matches(r, caller, status, search);
    Seqs.KeepConcat(rows, [other], p);
    assert Seqs.Keep([other], p) == [] + Seqs.Keep([other][1..], p);
  }

  // ---------------------------------------------------------------- target row

  /** The `WHERE id = $1 AND user_id = $2` of update and delete. */
  predicate IsTarget(r: Row, id: int, caller: UserId) {
    r.id == id && r.userId == caller
  }

  /** No two rows share an id (`id` is the primary key). */
  predicate UniqueIds(rows: seq<Row>) {
    forall i, j :: 0 <= i < j < |rows| ==> rows[i].id != rows[j].id
  }

  /** The position of the caller's row with this id, if any. */
  function FindOwned(rows: seq<Row>, id: int, caller: UserId): (i: Option<nat>)
    ensures i.Some? ==> i.value < |rows| && IsTarget(rows[i.value], id, caller)
    ensures i.None? <==> forall x :: x in rows ==> !IsTarget(x, id, caller)
  {
    if rows == [] then None
    else if IsTarget(rows[0], id, caller) then Some(0)
    else
      var rest := FindOwned(rows[1..], id, caller);
      assert forall x :: x in rows ==> x == rows[0] || x in rows[1..];
      if rest.None? then None else Some(rest.value + 1)
  }

  /** Under unique ids, the row `FindOwned` finds is the only target. */
  lemma OnlyTarget(rows: seq<Row>, id: int, caller: UserId, i: nat)
    requires UniqueIds(rows) && FindOwned(rows, id, caller) == Some(i)
    ensures forall j :: 0 <= j < |rows| && j != i ==> !IsTarget(rows[j], id, caller)
  {
    forall j | 0 <= j < |rows| && j != i ensures !IsTarget(rows[j], id, caller) {
      if j < i {
        assert rows[j].id != rows[i].id;
      } else {
        assert rows[i].id != rows[j].id;
      }
    }
  }

  /** Filtering keeps ids unique. */
  lemma {:induction false} KeepUniqueIds(s: seq<Row>, p: Row -> bool)
    requires UniqueIds(s)
    ensures UniqueIds(Seqs.Keep(s, p))
  {
    if s != [] {
      assert UniqueIds(s[1..]) by {
        forall i, j | 0 <= i < j < |s[1..]| ensures s[1..][i].id != s[1..][j].id {
          assert s[1..][i] == s[i + 1] && s[1..][j] == s[j + 1];
        }
      }
      KeepUniqueIds(s[1..], p);
      var t := Seqs.Keep(s[1..], p);
      if p(s[0]) {
        forall x | x in t ensures x.id != s[0].id {
          var j :| 0 <= j < |s[1..]| && s[1..][j] == x;
          assert s[j + 1] == x;
        }
        var u := [s[0]] + t;
        forall i, j | 0 <= i < j < |u| ensures u[i].id != u[j].id {
          assert u[j] == t[j - 1] && t[j - 1] in t;
          if i > 0 {
            assert u[i] == t[i - 1];
          }
        }
      }
    }
  }

  // ---------------------------------------------------------------- update

  /** `SET col = COALESCE($n, col)` then the BEFORE UPDATE trigger. The date
      text must be date input and the status must pass the CHECK, or the
      statement fails. A supplied value replaces the column even when it is
      the empty string; only a missing or null value keeps it. The key,
      owner and creation time are never touched. */
  function MergeRow(row: Row, b: Body, now: Timestamp, isDate: string -> bool): (r: Result<Row, DbError>)
    ensures r.Success? <==>
      (b.appliedDate.Some? ==> isDate(b.appliedDate.value)) &&
      (b.status.Some? ==> ParseStatus(b.status.value).Some?)
    ensures r.Success? ==>
      && r.value.id == row.id && r.value.userId == row.userId && r.value.createdAt == row.createdAt
      && r.value.updatedAt == now
      && r.value.company == b.company.GetOr(row.company)
      && r.value.role == b.role.GetOr(row.role)
      && (b.status.None? ==> r.value.status == row.status)
      && (b.status.Some? ==> StatusText(r.value.status) == b.status.value)
      && r.value.appliedDate == (if b.appliedDate.Some? then b.appliedDate else row.appliedDate)
      && r.value.notes == (if b.notes.Some? then b.notes else row.notes)
      && r.value.jobLink == (if b.jobLink.Some? then b.jobLink else row.jobLink)
  {
    if b.appliedDate.Some? && !isDate(b.appliedDate.value) then
      Failure(InvalidDateInput(b.appliedDate.value))
    else if b.status.Some? && ParseStatus(b.status.value).None? then
      Failure(CheckViolation("status"))
    else
      var status := if b.status.Some? then ParseStatus(b.status.value).value else row.status;
      Success(BeforeUpdate(row.(company := b.company.GetOr(row.company),
                                role := b.role.GetOr(row.role),
                                status := status,
                                appliedDate := if b.appliedDate.Some? then b.appliedDate else row.appliedDate,
                                notes := if b.notes.Some? then b.notes else row.notes,
                                jobLink := if b.jobLink.Some? then b.jobLink else row.jobLink), now))
  }

  /** A PATCH with no fields only moves `updated_at`. */
  lemma EmptyPatchTouchesOnlyTimestamp(row: Row, now: Timestamp, isDate: string -> bool)
    ensures MergeRow(row, EmptyBody, now, isDate) == Success(row.(updatedAt := now))
  {
  }

  /** `{ notes: "Second round scheduled" }` changes the notes and
      `updated_at` and nothing else. */
  lemma NotesOnlyPatch(row: Row, notes: string, now: Timestamp, isDate: string -> bool)
    ensures MergeRow(row, EmptyBody.(notes := Some(notes)), now, isDate) ==
            Success(row.(notes := Some(notes), updatedAt := now))
  {
  }

  /** Applying the same PATCH twice is applying it once (up to the time). */
  lemma PatchIdempotent(row: Row, b: Body, t1: Timestamp, t2: Timestamp, isDate: string -> bool)
    requires MergeRow(row, b, t1, isDate).Success?
    ensures MergeRow(MergeRow(row, b, t1, isDate).value, b, t2, isDate) ==
            Success(MergeRow(row, b, t1, isDate).value.(updatedAt := t2))
  {
    var once := MergeRow(row, b, t1, isDate).value;
    if b.status.Some? {
      assert ParseStatus(b.status.value) == Some(once.status) by {
        StatusRoundTrip(once.status);
      }
    }
  }

  /** An empty status is not a missing one: it reaches the CHECK and fails. */
  lemma EmptyStatusPatchFails(row: Row, now: Timestamp, isDate: string -> bool)
    ensures MergeRow(row, EmptyBody.(status := Some("")), now, isDate) == Failure(CheckViolation("status"))
  {
  }

  /** An empty date is not a missing one: it is sent as date input and, when
      the database rejects the empty text, the update fails. */
  lemma EmptyDatePatchFails(row: Row, b: Body, now: Timestamp, isDate: string -> bool)
    requires b.appliedDate == Some("") && !isDate("")
    ensures MergeRow(row, b, now, isDate) == Failure(InvalidDateInput(""))
  {
  }

  /** Replacing one of the caller's rows by its merge leaves every other
      user's rows as they were. */
  lemma UpdateKeepsOthers(rows: seq<Row>, i: nat, r: Row, u: UserId)
    requires i < |rows| && rows[i].userId == r.userId && r.userId != u
    ensures OwnedBy(rows[i := r], u) == OwnedBy(rows, u)
  {
    Seqs.KeepUpdateOutside(rows, i, r, (x: Row) => x.userId == u);
  }

  // ---------------------------------------------------------------- delete

  /** The table after `DELETE ... WHERE id = $1 AND user_id = $2`. */
  function RemoveOwned(rows: seq<Row>, id: int, caller: UserId): (r: seq<Row>)
    ensures forall x :: x in r <==> x in rows && !IsTarget(x, id, caller)
  {
    Seqs.Keep(rows, (x: Row) => !IsTarget(x, id, caller))
  }

  /** Deleting from a concatenation deletes from each part. */
  lemma RemoveOwnedConcat(a: seq<Row>, b: seq<Row>, id: int, caller: UserId)
    ensures RemoveOwned(a + b, id, caller) == RemoveOwned(a, id, caller) + RemoveOwned(b, id, caller)
  {
    Seqs.KeepConcat(a, b, (x: Row) => !IsTarget(x, id, caller));
  }

  /** Deleting from rows none of which is the target changes nothing. */
  lemma RemoveOwnedNoTarget(s: seq<Row>, id: int, caller: UserId)
    requires forall j :: 0 <= j < |s| ==> !IsTarget(s[j], id, caller)
    ensures RemoveOwned(s, id, caller) == s
  {
    forall x | x in s ensures !IsTarget(x, id, caller) {
      var j :| 0 <= j < |s| && s[j] == x;
    }
    Seqs.KeepAll(s, (x: Row) => !IsTarget(x, id, caller));
  }

  /** Deleting the target from a one-row list leaves nothing. */
  lemma RemoveOwnedTarget(r: Row, id: int, caller: UserId)
    requires IsTarget(r, id, caller)
    ensures RemoveOwned([r], id, caller) == []
  {
    assert [r][1..] == [];
  }

  /** Under unique ids the delete removes exactly the found row and keeps
      the rest in order. */
  lemma RemoveOwnedIsSplice(rows: seq<Row>, id: int, caller: UserId, i: nat)
    requires i < |rows| && IsTarget(rows[i], id, caller)
    requires forall j :: 0 <= j < |rows| && j != i ==> !IsTarget(rows[j], id, caller)
    ensures RemoveOwned(rows, id, caller) == rows[..i] + rows[i + 1..]
  {
    var before, here, after := rows[..i], [rows[i]], rows[i + 1..];
    assert rows == before + (here + after);
    RemoveOwnedConcat(before, here + after, id, caller);
    RemoveOwnedConcat(here, after, id, caller);
    RemoveOwnedTarget(rows[i], id, caller);
    assert forall j :: 0 <= j < |before| ==> !IsTarget(before[j], id, caller);
    assert forall j :: 0 <= j < |after| ==> !IsTarget(after[j], id, caller);
    RemoveOwnedNoTarget(before, id, caller);
    RemoveOwnedNoTarget(after, id, caller);
    calc {
      RemoveOwned(rows, id, caller);
      RemoveOwned(before, id, caller) + (RemoveOwned(here, id, caller) + RemoveOwned(after, id, caller));
      before + ([] + after);
      { assert [] + after == after; }
      before + after;
    }
  }

  /** Deleting the same id twice: the second time nothing is found. */
  lemma SecondDeleteNotFound(rows: seq<Row>, id: int, caller: UserId)
    ensures FindOwned(RemoveOwned(rows, id, caller), id, caller) == None
  {
  }

  /** A deleted row is never listed again. */
  lemma DeletedRowNotListed(rows: seq<Row>, id: int, caller: UserId, status: Option<string>, search: Option<string>)
    ensures forall x :: x in SelectJobs(RemoveOwned(rows, id, caller), caller, status, search) ==> x.id != id
  {
    ListsOnlyOwnRows(RemoveOwned(rows, id, caller), caller, status, search);
  }

  /** Deleting one of the caller's rows leaves every other user's rows as
      they were. */
  lemma RemoveKeepsOthers(rows: seq<Row>, id: int, caller: UserId, u: UserId)
    requires u != caller
    ensures OwnedBy(RemoveOwned(rows, id, caller), u) == OwnedBy(rows, u)
  {
    Seqs.KeepNarrower(rows, (x: Row) => !IsTarget(x, id, caller), (x: Row) => x.userId == u);
  }

  /** A created row is listed for its owner with its fields as stored (so a
      job link comes back identical), and after deleting it, it is gone. */
  lemma CreateListDeleteRoundTrip(rows: seq<Row>, r: Row)
    requires forall x :: x in rows ==> x.id != r.id
    ensures r in SelectJobs(rows + [r], r.userId, None, None)
    ensures RemoveOwned(rows + [r], r.id, r.userId) == Seqs.Keep(rows, (x: Row) => !IsTarget(x, r.id, r.userId))
    ensures r !in SelectJobs(RemoveOwned(rows + [r], r.id, r.userId), r.userId, None, None)
  {
    ListedIffMatches(rows + [r], r.userId, None, None, r);
    var p := (x: Row) => !IsTarget(x, r.id, r.userId);
    Seqs.KeepConcat(rows, [r], p);
    assert Seqs.Keep([r], p) == [] + Seqs.Keep([r][1..], p);
    ListedIffMatches(RemoveOwned(rows + [r], r.id, r.userId), r.userId, None, None, r);
  }

  // ---------------------------------------------------------------- the table

  class JobStore {
    /** The table, in insertion order. */
    var rows: seq<Row>
    /** The next value of the `id` sequence. */
    var nextId: nat

    /** Ids are unique and drawn from the sequence. */
    ghost predicate Valid()
      reads this
    {
      && 1 <= nextId
      && UniqueIds(rows)
      && (forall x :: x in rows ==> 1 <= x.id < nextId)
    }

    /** The empty table the migration creates. */
    constructor()
      ensures Valid() && rows == [] && nextId == 1
    {
      rows := [];
      nextId := 1;
    }

    /** `createJob`: a non-empty error list is answered with 400 and the list;
        otherwise the row is inserted with the next id and answered with 201,
        or the INSERT fails and the generic 500 is sent; a failed insert
        changes nothing. */
    method CreateJob(errors: seq<FieldError>, caller: UserId, b: Body, now: Timestamp, isDate: string -> bool)
      returns (res: Response)
      requires Valid()
      modifies this
      ensures Valid()
      ensures errors != [] ==>
        res == Response(400, ErrorsJson(errors)) && rows == old(rows) && nextId == old(nextId)
      ensures errors == [] ==>
        match NewJobRow(old(nextId), caller, b, now, isDate)
        case Success(r) =>
          rows == old(rows) + [r] && nextId == old(nextId) + 1 && res == Response(201, RowJson(r))
        case Failure(_) =>
          rows == old(rows) && nextId == old(nextId) && res == InternalError
    {
      if errors != [] {
        return Response(400, ErrorsJson(errors));
      }
      var inserted := NewJobRow(nextId, caller, b, now, isDate);
      if inserted.Failure? {
        return InternalError;
      }
      var r := inserted.value;
      assert forall x :: x in rows + [r] ==> x == r || x in rows;
      assert forall i :: 0 <= i < |rows| ==> rows[i] in rows;
      rows := rows + [r];
      nextId := nextId + 1;
      res := Response(201, RowJson(r));
    }

    /** `getJobs`: builds the query and answers 200 with what it selects. */
    method GetJobs(caller: UserId, status: Option<string>, search: Option<string>) returns (res: Response)
      ensures res == Response(200, RowsJson(SelectJobs(rows, caller, status, search)))
    {
      var conds, params := BuildQuery(caller, status, search);
      var selected := Seqs.Keep(rows, (r: Row) => AllHold(conds, params, r));
      Seqs.KeepCongruent(rows, (r: Row) => AllHold(conds, params, r), (r: Row) => Matches(r, caller, status, search));
      res := Response(200, RowsJson(SortNewestFirst(selected)));
    }

    /** `updateJob`: 404 when the caller owns no row with this id; otherwise
        the merged row replaces it and is answered with 200, or the UPDATE
        fails and the generic 500 is sent. Only that one row can change. */
    method UpdateJob(caller: UserId, id: int, b: Body, now: Timestamp, isDate: string -> bool)
      returns (res: Response)
      requires Valid()
      modifies this
      ensures Valid() && nextId == old(nextId)
      ensures match FindOwned(old(rows), id, caller)
        case None =>
          res == Response(404, ErrorJson(NotFoundMessage)) && rows == old(rows)
        case Some(i) =>
          match MergeRow(old(rows)[i], b, now, isDate)
          case Success(r) => rows == old(rows)[i := r] && res == Response(200, RowJson(r))
          case Failure(_) => rows == old(rows) && res == InternalError
    {
      var found := FindOwned(rows, id, caller);
      if found.None? {
        return Response(404, ErrorJson(NotFoundMessage));
      }
      var i := found.value;
      var merged := MergeRow(rows[i], b, now, isDate);
      if merged.Failure? {
        return InternalError;
      }
      OnlyTarget(rows, id, caller, i);
      assert forall j :: 0 <= j < |rows| ==> rows[j] in rows;
      rows := rows[i := merged.value];
      res := Response(200, RowJson(merged.value));
    }

    /** `deleteJob`: removes the caller's row with this id; 404 when there
        is none (and nothing changes), otherwise 200 with the message. */
    method DeleteJob(caller: UserId, id: int) returns (res: Response)
      requires Valid()
      modifies this
      ensures Valid() && nextId == old(nextId)
      ensures rows == RemoveOwned(old(rows), id, caller)
      ensures match FindOwned(old(rows), id, caller)
        case None => res == Response(404, ErrorJson(NotFoundMessage)) && rows == old(rows)
        case Some(i) => res == Response(200, MessageJson(DeletedMessage)) && rows == old(rows)[..i] + old(rows)[i + 1..]
    {
      var deleted := Seqs.Keep(rows, (x: Row) => IsTarget(x, id, caller));
      KeepUniqueIds(rows, (x: Row) => !IsTarget(x, id, caller));
      var found := FindOwned(rows, id, caller);
      if found.Some? {
        OnlyTarget(rows, id, caller, found.value);
        RemoveOwnedIsSplice(rows, id, caller, found.value);
        assert rows[found.value] in deleted;
      } else {
        Seqs.KeepAll(rows, (x: Row) => !IsTarget(x, id, caller));
        Seqs.KeepNone(rows, (x: Row) => IsTarget(x, id, caller));
      }
      rows := RemoveOwned(rows, id, caller);
      if |deleted| == 0 {
        res := Response(404, ErrorJson(NotFoundMessage));
      } else {
        res := Response(200, MessageJson(DeletedMessage));
      }
    }

    /** Deleting a user from `auth.users`: the cascade removes that user's
        rows. */
    method DeleteUser(u: UserId)
      requires Valid()
      modifies this
      ensures Valid() && nextId == old(nextId)
      ensures rows == CascadeDeleteUser(old(rows), u)
    {
      KeepUniqueIds(rows, (x: Row) => x.userId != u);
      rows := CascadeDeleteUser(rows, u);
    }
  }
}
