/** The tenant login form: one form that either registers a new account
    with its company or logs in and stores the session. */
module TenantLogin {
  import opened Http
  import opened Browser
  import opened Hooks

  const AccountCreated: string := "Account created! Please login."
  const SomethingWentWrong: string := "Something went wrong"

  /** The POST a submit issues in each mode. */
  function SubmitRequest(isRegistering: bool, username: string, password: string, companyName: string): (r: Request)
    ensures r.verb == POST && r.authorization == None
    ensures isRegistering ==> r.endpoint == RegisterEndpoint && r.body == Registration(username, password, companyName)
    ensures !isRegistering ==> r.endpoint == TokenEndpoint && r.body == LoginForm(username, password)
  {
    if isRegistering then Request(POST, RegisterEndpoint, Registration(username, password, companyName), None)
    else Request(POST, TokenEndpoint, LoginForm(username, password), None)
  }

  /** The company name leaves the browser only when registering, and the
      credentials are sent in both modes. */
  lemma CompanySentOnlyOnRegister(isRegistering: bool, username: string, password: string, c1: string, c2: string)
    ensures !isRegistering ==> SubmitRequest(false, username, password, c1) == SubmitRequest(false, username, password, c2)
    ensures isRegistering && c1 != c2 ==> SubmitRequest(true, username, password, c1) != SubmitRequest(true, username, password, c2)
  {
    if isRegistering && c1 != c2 {
      assert SubmitRequest(true, username, password, c1).body.companyName != SubmitRequest(true, username, password, c2).body.companyName;
    }
  }

  class TenantLoginPage {
    var username: string
    var password: string
    var companyName: string
    var isRegistering: bool
    /** Shown in the alert above the form; it also carries the
        registration notice. */
    var error: string

    constructor ()
      ensures username == "" && password == "" && companyName == "" && !isRegistering && error == ""
    {
      username := "";
      password := "";
      companyName := "";
      isRegistering := false;
      error := "";
    }

    method Edit(u: string, p: string, c: string)
      modifies this
      ensures username == u && password == p && companyName == c
      ensures isRegistering == old(isRegistering) && error == old(error)
    {
      username := u;
      password := p;
      companyName := c;
    }

    /** The company field is rendered only in register mode. */
    predicate ShowsCompanyField()
      reads this
    {
      isRegistering
    }

    /** The mode toggle below the form. */
    method ToggleMode()
      modifies this
      ensures isRegistering == !old(isRegistering)
      ensures username == old(username) && password == old(password) && companyName == old(companyName) && error == old(error)
    {
      isRegistering := !isRegistering;
    }

    /** `handleSubmit` with `registered` the result of POST /register (used
        in register mode) and `loggedIn` the result of POST /token (used in
        login mode). */
    method HandleSubmit(b: Browser, registered: Outcome<()>, loggedIn: Outcome<TokenReply>)
      modifies this, b
      ensures b.requests == old(b.requests) + [SubmitRequest(old(isRegistering), old(username), old(password), old(companyName))]
      ensures old(isRegistering) && registered.Ok? ==>
        !isRegistering && error == AccountCreated && b.storage == old(b.storage) && b.history == old(b.history)
      ensures old(isRegistering) && registered.Failed? ==>
        isRegistering && error == DetailOr(registered.error, SomethingWentWrong)
        && b.storage == old(b.storage) && b.history == old(b.history)
      ensures !old(isRegistering) && loggedIn.Ok? ==>
        && b.storage == old(b.storage)["token" := loggedIn.data.accessToken]["company" := loggedIn.data.company]
        && b.history == old(b.history) + ["/dashboard"] && error == "" && !isRegistering
      ensures !old(isRegistering) && loggedIn.Failed? ==>
        error == DetailOr(loggedIn.error, SomethingWentWrong) && !isRegistering
        && b.storage == old(b.storage) && b.history == old(b.history)
      ensures username == old(username) && password == old(password) && companyName == old(companyName)
      ensures b.alerts == old(b.alerts)
    {
      error := "";
      b.Send(SubmitRequest(isRegistering, username, password, companyName));
      if isRegistering {
        match registered {
          case Ok(_) =>
            isRegistering := false;
            error := AccountCreated;
          case Failed(e) =>
            error := DetailOr(e, SomethingWentWrong);
        }
      } else {
        match loggedIn {
          case Ok(reply) =>
            b.SetItem("token", reply.accessToken);
            b.SetItem("company", reply.company);
            b.Navigate("/dashboard");
          case Failed(e) =>
            error := DetailOr(e, SomethingWentWrong);
        }
      }
    }
  }
}
