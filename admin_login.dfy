/** The administrator login form: the credentials go to the shared token
    endpoint, and only a reply that marks the account as an administrator
    opens the dashboard. */
module AdminLogin {
  import opened Http
  import opened Browser
  import opened Hooks

  /** The key the administrator token is stored under. */
  const TokenKey: string := "admin_token"
  const AccessDenied: string := "Access denied. Administrator privileges required."
  const AuthenticationFailed: string := "Authentication failed"

  /** What one submit decides. */
  datatype Decision =
    | Admitted(token: string)   // store the token and open the dashboard
    | Denied                    // a valid login without administrator rights
    | Rejected(message: string) // the POST failed

  function Decide(outcome: Outcome<TokenReply>): (d: Decision)
    ensures d.Admitted? <==> outcome.Ok? && outcome.data.isAdmin
    ensures d.Admitted? ==> d.token == outcome.data.accessToken
    ensures d.Denied? <==> outcome.Ok? && !outcome.data.isAdmin
    ensures d.Rejected? <==> outcome.Failed?
    ensures d.Rejected? ==> d.message == DetailOr(outcome.error, AuthenticationFailed)
  {
    match outcome
    case Ok(reply) => if reply.isAdmin then Admitted(reply.accessToken) else Denied
    case Failed(e) => Rejected(DetailOr(e, AuthenticationFailed))
  }

  /** The error line the form shows after a submit. */
  function ErrorAfter(d: Decision): (m: string)
    ensures d.Admitted? ==> m == ""
    ensures d.Denied? ==> m == AccessDenied
    ensures d.Rejected? ==> m == d.message
  {
    match d
    case Admitted(_) => ""
    case Denied => AccessDenied
    case Rejected(msg) => msg
  }

  /** Every refused submit explains itself with a non-empty message. */
  lemma RefusalsAreExplained(outcome: Outcome<TokenReply>)
    ensures !Decide(outcome).Admitted? ==> ErrorAfter(Decide(outcome)) != ""
    ensures outcome.Failed? && !HasDetail(outcome.error) ==> ErrorAfter(Decide(outcome)) == AuthenticationFailed
  {
  }

  /** `disabled={loading || !username || !password}` */
  function SubmitDisabled(loading: bool, username: string, password: string): (r: bool)
    ensures !r <==> !loading && |username| > 0 && |password| > 0
  {
    loading || username == "" || password == ""
  }

  class AdminLoginPage {
    var username: string
    var password: string
    var error: string
    var loading: bool

    constructor ()
      ensures username == "" && password == "" && error == "" && !loading
    {
      username := "";
      password := "";
      error := "";
      loading := false;
    }

    method Edit(u: string, p: string)
      modifies this
      ensures username == u && password == p && error == old(error) && loading == old(loading)
    {
      username := u;
      password := p;
    }

    predicate CanSubmit()
      reads this
    {
      !SubmitDisabled(loading, username, password)
    }

    /** `handleSubmit` with `outcome` the result of POST /token. */
    method HandleSubmit(b: Browser, outcome: Outcome<TokenReply>)
      modifies this, b
      ensures b.requests == old(b.requests) + [Request(POST, TokenEndpoint, LoginForm(old(username), old(password)), None)]
      ensures error == ErrorAfter(Decide(outcome))
      ensures Decide(outcome).Admitted? ==>
        b.storage == old(b.storage)[TokenKey := outcome.data.accessToken] && b.history == old(b.history) + ["/dashboard"]
      ensures !Decide(outcome).Admitted? ==> b.storage == old(b.storage) && b.history == old(b.history)
      ensures !loading && username == old(username) && password == old(password)
      ensures b.alerts == old(b.alerts)
    {
      error := "";
      loading := true;
      b.Send(Request(POST, TokenEndpoint, LoginForm(username, password), None));
      match outcome {
        case Ok(reply) =>
          if !reply.isAdmin {
            error := AccessDenied;
            loading := false;
            return;
          }
          b.SetItem(TokenKey, reply.accessToken);
          b.Navigate("/dashboard");
        case Failed(e) =>
          error := DetailOr(e, AuthenticationFailed);
      }
      loading := false;
    }
  }
}
