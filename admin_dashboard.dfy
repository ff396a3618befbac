/** The administrator dashboard: it loads platform statistics, companies and
    users in one combined round, deletes a company or a user behind a
    confirmation dialog, and reports outcomes in a snackbar. */
module AdminDashboard {
  import opened Http
  import opened Browser

  const TokenKey: string := "admin_token"
  const SessionExpired: string := "Session expired. Please login again."
  const FetchFailed: string := "Failed to fetch data"
  const DeleteFailed: string := "Delete failed"

  datatype Stats = Stats(totalCompanies: int, totalUsers: int, totalPods: int, totalDeployments: int)
  datatype Company = Company(name: string, namespace: string)
  datatype Account = Account(id: int, username: string, companyName: string)

  /** The three payloads of one `Promise.all` round. */
  datatype AdminData = AdminData(stats: Stats, companies: seq<Company>, users: seq<Account>)

  /** What the confirmation dialog is about: its `type` and `item` together. */
  datatype Target = CompanyTarget(company: Company) | UserTarget(account: Account)

  datatype DeleteDialog = DeleteDialog(open: bool, target: Option<Target>)

  const ClosedDialog: DeleteDialog := DeleteDialog(false, None)

  datatype Severity = Success | Error

  datatype Snackbar = Snackbar(open: bool, message: string, severity: Severity)

  /** The three GETs of `fetchData`, all with the same bearer header. */
  function FetchRequests(token: Option<string>): (rs: seq<Request>)
    ensures |rs| == 3
    ensures forall i :: 0 <= i < 3 ==> rs[i].verb == GET && rs[i].body == NoBody && rs[i].authorization == Some(BearerHeader(token))
    ensures [rs[0].endpoint, rs[1].endpoint, rs[2].endpoint] == [AdminStats, AdminCompanies, AdminUsers]
  {
    var h := Some(BearerHeader(token));
    [Request(GET, AdminStats, NoBody, h), Request(GET, AdminCompanies, NoBody, h), Request(GET, AdminUsers, NoBody, h)]
  }

  /** A 401 or a 403: the session is no longer accepted. */
  /** `error.response?.status === 403 || error.response?.status === 401`:
      a request that got no response is never an authentication failure. */
  predicate IsAuthFailure(e: HttpError): (b: bool)
    ensures b <==> e.response.Some? && e.response.value.status in {401, 403}
  {
    HasStatus(e, 401) || HasStatus(e, 403)
  }

  /** The snackbar a failed `fetchData` shows. */
  function FetchFailureReport(e: HttpError): (s: Snackbar)
    ensures s.open && s.severity == Error
    ensures s.message == SessionExpired <==> IsAuthFailure(e)
    ensures s.message == FetchFailed <==> !IsAuthFailure(e)
  {
    Snackbar(true, if IsAuthFailure(e) then SessionExpired else FetchFailed, Error)
  }

  /** The DELETE `handleDelete` issues for a target. */
  function DeleteRequest(t: Target, token: Option<string>): (r: Request)
    ensures r.verb == DELETE && r.body == NoBody && r.authorization == Some(BearerHeader(token))
    ensures t.CompanyTarget? ==> r.endpoint == AdminCompany(t.company.name)
    ensures t.UserTarget? ==> r.endpoint == AdminUser(t.account.id)
  {
    var e := match t
      case CompanyTarget(c) => AdminCompany(c.name)
      case UserTarget(u) => AdminUser(u.id);
    Request(DELETE, e, NoBody, Some(BearerHeader(token)))
  }

  /** The key a delete is addressed by: a company's name or a user's id. */
  lemma DeleteRequestIdentifiesTarget(t1: Target, t2: Target, token: Option<string>)
    requires DeleteRequest(t1, token) == DeleteRequest(t2, token)
    ensures t1.CompanyTarget? <==> t2.CompanyTarget?
    ensures t1.CompanyTarget? ==> t1.company.name == t2.company.name
    ensures t1.UserTarget? ==> t1.account.id == t2.account.id
  {
    assert DeleteRequest(t1, token).endpoint == DeleteRequest(t2, token).endpoint;
  }

  /** The name the success message shows: the company's name or the
      user's username. */
  function Shown(t: Target): string {
    match t
    case CompanyTarget(c) => c.name
    case UserTarget(u) => u.username
  }

  /** The opening of the success message, up to the opening quote. */
  function Opening(t: Target): (p: string)
    ensures |p| > 0 && p[0] == if t.CompanyTarget? then 'C' else 'U'
  {
    if t.CompanyTarget? then "Company \"" else "User \""
  }

  const Closing: string := "\" deleted successfully"

  function DeletedMessage(t: Target): (m: string)
    ensures t.CompanyTarget? ==> m == "Company \"" + t.company.name + "\" deleted successfully"
    ensures t.UserTarget? ==> m == "User \"" + t.account.username + "\" deleted successfully"
  {
    Opening(t) + Shown(t) + Closing
  }

  /** Equal texts with the same opening and closing have the same middle. */
  lemma SameMiddle(p: string, x: string, y: string, q: string)
    requires p + x + q == p + y + q
    ensures x == y
  {
    assert |x| == |y|;
    assert x == (p + x + q)[|p|..|p| + |x|];
    assert y == (p + y + q)[|p|..|p| + |y|];
  }

  /** The success message tells what kind of entity was deleted and which
      name it had. */
  lemma DeletedMessageIdentifiesTarget(t1: Target, t2: Target)
    requires DeletedMessage(t1) == DeletedMessage(t2)
    ensures t1.CompanyTarget? <==> t2.CompanyTarget?
    ensures Shown(t1) == Shown(t2)
  {
    assert DeletedMessage(t1)[0] == Opening(t1)[0];
    assert DeletedMessage(t2)[0] == Opening(t2)[0];
    if t1.CompanyTarget? == t2.CompanyTarget? {
      assert Opening(t1) == Opening(t2);
      SameMiddle(Opening(t1), Shown(t1), Shown(t2), Closing);
    }
  }

  /** The snackbar after a DELETE: the success message, or the server's
      detail with "Delete failed" as fallback. */
  function DeleteReport(t: Target, outcome: Outcome<()>): (s: Snackbar)
    ensures s.open
    ensures outcome.Ok? ==> s == Snackbar(true, DeletedMessage(t), Success)
    ensures outcome.Failed? ==> s.severity == Error && s.message == DetailOr(outcome.error, DeleteFailed)
  {
    match outcome
    case Ok(_) => Snackbar(true, DeletedMessage(t), Success)
    case Failed(e) => Snackbar(true, DetailOr(e, DeleteFailed), Error)
  }

  /** A failed delete never reports success and never shows an empty
      message. */
  lemma FailedDeleteIsAnError(t: Target, e: HttpError)
    ensures DeleteReport(t, Failed(e)).severity == Error
    ensures DeleteReport(t, Failed(e)).message != ""
    ensures !HasDetail(e) ==> DeleteReport(t, Failed(e)).message == DeleteFailed
  {
  }

  class AdminDashboardPage {
    /** `localStorage.getItem('admin_token')` as the first render saw it:
        `fetchData` is memoised once and keeps that header. */
    const token: Option<string>
    var stats: Option<Stats>
    var companies: seq<Company>
    var users: seq<Account>
    var loading: bool
    var deleteDialog: DeleteDialog
    var snackbar: Snackbar

    constructor (b: Browser)
      ensures token == b.GetItem(TokenKey)
      ensures stats == None && companies == [] && users == [] && loading
      ensures deleteDialog == ClosedDialog && snackbar == Snackbar(false, "", Success)
      ensures ShowsSpinner()
    {
      token := b.GetItem(TokenKey);
      stats := None;
      companies := [];
      users := [];
      loading := true;
      deleteDialog := ClosedDialog;
      snackbar := Snackbar(false, "", Success);
    }

    /** The full-page spinner is shown while loading with no stats yet. */
    predicate ShowsSpinner()
      reads this
    {
      loading && stats.None?
    }

    method HandleLogout(b: Browser)
      modifies b
      ensures b.storage == old(b.storage) - {TokenKey}
      ensures b.history == old(b.history) + ["/"]
      ensures b.requests == old(b.requests) && b.alerts == old(b.alerts)
    {
      b.RemoveItem(TokenKey);
      b.Navigate("/");
    }

    /** `fetchData()` with `outcome` the combined result of the three GETs:
        all three lists are replaced together or none is. */
    method FetchData(b: Browser, outcome: Outcome<AdminData>)
      modifies this, b
      ensures b.requests == old(b.requests) + FetchRequests(token) && b.alerts == old(b.alerts)
      ensures outcome.Ok? ==>
        && stats == Some(outcome.data.stats) && companies == outcome.data.companies && users == outcome.data.users
        && snackbar == old(snackbar)
        && b.storage == old(b.storage) && b.history == old(b.history)
      ensures outcome.Failed? ==>
        && stats == old(stats) && companies == old(companies) && users == old(users)
        && snackbar == FetchFailureReport(outcome.error)
      ensures outcome.Failed? && IsAuthFailure(outcome.error) ==>
        b.storage == old(b.storage) - {TokenKey} && b.history == old(b.history) + ["/"]
      ensures outcome.Failed? && !IsAuthFailure(outcome.error) ==>
        b.storage == old(b.storage) && b.history == old(b.history)
      ensures !loading && deleteDialog == old(deleteDialog)
      ensures !ShowsSpinner()
    {
      loading := true;
      var rs := FetchRequests(token);
      b.Send(rs[0]);
      b.Send(rs[1]);
      b.Send(rs[2]);
      assert b.requests == old(b.requests) + rs;
      match outcome {
        case Ok(d) =>
          stats := Some(d.stats);
          companies := d.companies;
          users := d.users;
        case Failed(e) =>
          snackbar := FetchFailureReport(e);
          if IsAuthFailure(e) {
            HandleLogout(b);
          }
      }
      loading := false;
    }

    /** The mount effect: without a token go to the login page and fetch
        nothing; otherwise fetch once. */
    method Mount(b: Browser, outcome: Outcome<AdminData>)
      modifies this, b
      ensures token.None? || token == Some("") ==>
        && b.history == old(b.history) + ["/"] && b.requests == old(b.requests) && b.storage == old(b.storage)
        && stats == old(stats) && companies == old(companies) && users == old(users)
        && loading == old(loading) && snackbar == old(snackbar)
      ensures token.Some? && token.value != "" ==> b.requests == old(b.requests) + FetchRequests(token) && !loading
      ensures token.Some? && token.value != "" && outcome.Ok? ==>
        && stats == Some(outcome.data.stats) && companies == outcome.data.companies && users == outcome.data.users
        && snackbar == old(snackbar) && b.storage == old(b.storage) && b.history == old(b.history)
      ensures token.Some? && token.value != "" && outcome.Failed? ==>
        && stats == old(stats) && companies == old(companies) && users == old(users)
        && snackbar == FetchFailureReport(outcome.error)
        && (IsAuthFailure(outcome.error) ==> b.storage == old(b.storage) - {TokenKey} && b.history == old(b.history) + ["/"])
        && (!IsAuthFailure(outcome.error) ==> b.storage == old(b.storage) && b.history == old(b.history))
      ensures deleteDialog == old(deleteDialog) && b.alerts == old(b.alerts)
    {
      if token.None? || token.value == "" {
        b.Navigate("/");
        return;
      }
      FetchData(b, outcome);
    }

    /** A company row's delete button. */
    method OpenCompanyDelete(c: Company)
      modifies this
      ensures deleteDialog == DeleteDialog(true, Some(CompanyTarget(c)))
      ensures stats == old(stats) && companies == old(companies) && users == old(users)
      ensures loading == old(loading) && snackbar == old(snackbar)
    {
      deleteDialog := DeleteDialog(true, Some(CompanyTarget(c)));
    }

    /** A user row's delete button. */
    method OpenUserDelete(u: Account)
      modifies this
      ensures deleteDialog == DeleteDialog(true, Some(UserTarget(u)))
      ensures stats == old(stats) && companies == old(companies) && users == old(users)
      ensures loading == old(loading) && snackbar == old(snackbar)
    {
      deleteDialog := DeleteDialog(true, Some(UserTarget(u)));
    }

    /** The dialog's Cancel button and its backdrop close. */
    method CancelDelete()
      modifies this
      ensures deleteDialog == ClosedDialog
      ensures stats == old(stats) && companies == old(companies) && users == old(users)
      ensures loading == old(loading) && snackbar == old(snackbar)
    {
      deleteDialog := ClosedDialog;
    }

    /** The snackbar's close: only `open` changes. */
    method CloseSnackbar()
      modifies this
      ensures snackbar == old(snackbar).(open := false)
      ensures stats == old(stats) && companies == old(companies) && users == old(users)
      ensures loading == old(loading) && deleteDialog == old(deleteDialog)
    {
      snackbar := snackbar.(open := false);
    }

    /** `handleDelete()` with `outcome` the DELETE's result and `refetch` the
        result of the `fetchData()` a successful delete starts. The refetch
        is not awaited; it is applied before the dialog reset, which touches
        no field the refetch does. */
    method HandleDelete(b: Browser, outcome: Outcome<()>, refetch: Outcome<AdminData>)
      modifies this, b
      ensures deleteDialog == ClosedDialog
      ensures old(deleteDialog.target).Some? && outcome.Failed? ==>
        && b.requests == old(b.requests) + [DeleteRequest(old(deleteDialog.target).value, token)]
        && snackbar == DeleteReport(old(deleteDialog.target).value, outcome)
        && stats == old(stats) && companies == old(companies) && users == old(users) && loading == old(loading)
        && b.storage == old(b.storage) && b.history == old(b.history)
      ensures old(deleteDialog.target).Some? && outcome.Ok? ==>
        b.requests == old(b.requests) + [DeleteRequest(old(deleteDialog.target).value, token)] + FetchRequests(token)
      ensures old(deleteDialog.target).None? ==> b.requests == old(b.requests) + FetchRequests(token)
      ensures old(deleteDialog.target).None? || outcome.Ok? ==>
        && !loading
        && (refetch.Ok? ==>
             && stats == Some(refetch.data.stats) && companies == refetch.data.companies && users == refetch.data.users
             && b.storage == old(b.storage) && b.history == old(b.history))
        && (refetch.Failed? ==>
             && stats == old(stats) && companies == old(companies) && users == old(users)
             && snackbar == FetchFailureReport(refetch.error))
        && (refetch.Failed? && IsAuthFailure(refetch.error) ==>
             b.storage == old(b.storage) - {TokenKey} && b.history == old(b.history) + ["/"])
        && (refetch.Failed? && !IsAuthFailure(refetch.error) ==>
             b.storage == old(b.storage) && b.history == old(b.history))
      ensures old(deleteDialog.target).Some? && outcome.Ok? && refetch.Ok? ==>
        snackbar == Snackbar(true, DeletedMessage(old(deleteDialog.target).value), Success)
      ensures old(deleteDialog.target).None? && refetch.Ok? ==> snackbar == old(snackbar)
      ensures b.alerts == old(b.alerts)
    {
      match deleteDialog.target {
        case Some(t) =>
          b.Send(DeleteRequest(t, token));
          snackbar := DeleteReport(t, outcome);
          if outcome.Ok? {
            FetchData(b, refetch);
          }
        case None =>
          FetchData(b, refetch);
      }
      deleteDialog := ClosedDialog;
    }
  }
}
