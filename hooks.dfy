/** The React hooks shared by the tenant pages: the single-slot notification,
    the session held in `localStorage`, a value persisted in `localStorage`,
    and the pod actions with their error-message rules. */
module Hooks {
  import opened Http
  import opened Browser

  // ---------------------------------------------------------------------
  // useNotification
  // ---------------------------------------------------------------------

  /** The snackbar content; a new notification replaces the old one whole. */
  class Notification {
    var open: bool
    var message: string
    var severity: string
    var title: string

    constructor ()
      ensures !open && message == "" && severity == "success" && title == ""
    {
      open := false;
      message := "";
      severity := "success";
      title := "";
    }

    /** `showNotification(title, message, severity)` */
    method Show(newTitle: string, newMessage: string, newSeverity: string)
      modifies this
      ensures open && title == newTitle && message == newMessage && severity == newSeverity
    {
      open := true;
      message := newMessage;
      severity := newSeverity;
      title := newTitle;
    }

    /** `hideNotification()`: `{ ...prev, open: false }` */
    method Hide()
      modifies this
      ensures !open
      ensures message == old(message) && severity == old(severity) && title == old(title)
    {
      open := false;
    }

    method ShowSuccess(newTitle: string, newMessage: string)
      modifies this
      ensures open && title == newTitle && message == newMessage && severity == "success"
    {
      Show(newTitle, newMessage, "success");
    }

    method ShowError(newTitle: string, newMessage: string)
      modifies this
      ensures open && title == newTitle && message == newMessage && severity == "error"
    {
      Show(newTitle, newMessage, "error");
    }

    method ShowWarning(newTitle: string, newMessage: string)
      modifies this
      ensures open && title == newTitle && message == newMessage && severity == "warning"
    {
      Show(newTitle, newMessage, "warning");
    }

    method ShowInfo(newTitle: string, newMessage: string)
      modifies this
      ensures open && title == newTitle && message == newMessage && severity == "info"
    {
      Show(newTitle, newMessage, "info");
    }
  }

  // ---------------------------------------------------------------------
  // useAuth
  // ---------------------------------------------------------------------

  datatype User = User(company: string, isAdmin: Option<bool>)

  /** What POST /token answers. */
  datatype TokenReply = TokenReply(accessToken: string, company: string, isAdmin: bool)

  /** A session is restored exactly when both keys hold a non-empty value. */
  predicate HasSession(storage: map<string, string>) {
    "token" in storage && storage["token"] != "" && "company" in storage && storage["company"] != ""
  }

  class Auth {
    var isAuthenticated: bool
    var user: Option<User>
    var loading: bool

    constructor ()
      ensures !isAuthenticated && user == None && loading
    {
      isAuthenticated := false;
      user := None;
      loading := true;
    }

    /** The mount effect: restore the session from storage. */
    method Restore(b: Browser)
      modifies this
      ensures HasSession(b.storage) ==> isAuthenticated && user == Some(User(b.storage["company"], None))
      ensures !HasSession(b.storage) ==> isAuthenticated == old(isAuthenticated) && user == old(user)
      ensures !loading
    {
      var token := b.GetItem("token");
      var company := b.GetItem("company");
      if token.Some? && token.value != "" && company.Some? && company.value != "" {
        isAuthenticated := true;
        user := Some(User(company.value, None));
      }
      loading := false;
    }

    /** `login(username, password)`: the POST /token is awaited without a
        catch, so a failure rejects and changes nothing. */
    method Login(b: Browser, username: string, password: string, outcome: Outcome<TokenReply>) returns (r: Outcome<User>)
      modifies this, b
      ensures b.requests == old(b.requests) + [Request(POST, TokenEndpoint, LoginForm(username, password), None)]
      ensures b.history == old(b.history) && b.alerts == old(b.alerts)
      ensures outcome.Ok? ==>
        && b.storage == old(b.storage)["token" := outcome.data.accessToken]["company" := outcome.data.company]
        && isAuthenticated
        && user == Some(User(outcome.data.company, Some(outcome.data.isAdmin)))
        && r == Ok(User(outcome.data.company, Some(outcome.data.isAdmin)))
      ensures outcome.Failed? ==>
        && b.storage == old(b.storage)
        && isAuthenticated == old(isAuthenticated) && user == old(user)
        && r == Failed(outcome.error)
      ensures loading == old(loading)
    {
      b.Send(Request(POST, TokenEndpoint, LoginForm(username, password), None));
      match outcome {
        case Ok(reply) =>
          b.SetItem("token", reply.accessToken);
          b.SetItem("company", reply.company);
          isAuthenticated := true;
          user := Some(User(reply.company, Some(reply.isAdmin)));
          r := Ok(User(reply.company, Some(reply.isAdmin)));
        case Failed(e) =>
          r := Failed(e);
      }
    }

    method Logout(b: Browser)
      modifies this, b
      ensures b.storage == old(b.storage) - {"token", "company"}
      ensures !HasSession(b.storage)
      ensures !isAuthenticated && user == None && loading == old(loading)
      ensures b.history == old(b.history) && b.requests == old(b.requests) && b.alerts == old(b.alerts)
    {
      b.RemoveItem("token");
      b.RemoveItem("company");
      assert b.storage == old(b.storage) - {"token", "company"};
      isAuthenticated := false;
      user := None;
    }
  }

  /** On a fresh hook the restored state is authenticated exactly when both
      keys are present and non-empty. */
  method Mount(b: Browser) returns (a: Auth)
    ensures fresh(a)
    ensures a.isAuthenticated <==> HasSession(b.storage)
    ensures a.user.Some? <==> HasSession(b.storage)
    ensures !a.loading
  {
    a := new Auth();
    a.Restore(b);
  }

  /** A login followed by a restore (a reload) yields the logged-in session
      again, as long as the server's token and company are non-empty. */
  lemma LoginThenRestore(storage: map<string, string>, reply: TokenReply)
    requires reply.accessToken != "" && reply.company != ""
    ensures HasSession(storage["token" := reply.accessToken]["company" := reply.company])
  {
  }

  // ---------------------------------------------------------------------
  // useApi.getAuthHeaders
  // ---------------------------------------------------------------------

  /** The Authorization header value for the token currently stored. */
  function AuthHeader(storage: map<string, string>): (h: string)
    ensures "token" in storage ==> h == "Bearer " + storage["token"]
    ensures "token" !in storage ==> h == "Bearer null"
  {
    BearerHeader(if "token" in storage then Some(storage["token"]) else None)
  }

  // ---------------------------------------------------------------------
  // useLocalStorage
  // ---------------------------------------------------------------------

  /** `setValue(value)`: a plain value, or a function of the current one. */
  datatype Update<!V> = Value(v: V) | Apply(f: V -> V)

  function Resolve<V>(u: Update<V>, current: V): V {
    match u
    case Value(v) => v
    case Apply(f) => f(current)
  }

  /** The initial state: `item ? JSON.parse(item) : initialValue`, with a
      parse failure also giving `initialValue`. */
  function InitialValue<V>(storage: map<string, string>, key: string, initialValue: V,
                           parse: string -> Option<V>): (v: V)
    ensures (key !in storage || storage[key] == "") ==> v == initialValue
    ensures key in storage && storage[key] != "" && parse(storage[key]).Some? ==> v == parse(storage[key]).value
    ensures key in storage && parse(storage[key]).None? ==> v == initialValue
  {
    if key in storage && storage[key] != "" then
      match parse(storage[key])
      case Some(v) => v
      case None => initialValue
    else initialValue
  }

  /** The hook's state; `parse` and `stringify` stand for `JSON.parse` and
      `JSON.stringify`. */
  class StoredValue<V> {
    const key: string
    const parse: string -> Option<V>
    const stringify: V -> string
    var storedValue: V

    constructor (b: Browser, storageKey: string, initialValue: V, parser: string -> Option<V>, printer: V -> string)
      ensures key == storageKey && parse == parser && stringify == printer
      ensures storedValue == InitialValue(b.storage, storageKey, initialValue, parser)
    {
      key := storageKey;
      parse := parser;
      stringify := printer;
      storedValue := InitialValue(b.storage, storageKey, initialValue, parser);
    }

    method SetValue(b: Browser, u: Update<V>)
      modifies this, b
      ensures storedValue == Resolve(u, old(storedValue))
      ensures b.storage == old(b.storage)[key := stringify(storedValue)]
      ensures b.history == old(b.history) && b.requests == old(b.requests) && b.alerts == old(b.alerts)
    {
      var valueToStore := Resolve(u, storedValue);
      storedValue := valueToStore;
      b.SetItem(key, stringify(valueToStore));
    }
  }

  /** What `setValue` stores is what the hook starts from next time, for
      values whose JSON text is non-empty and parses back to them. */
  lemma StoredValueRoundTrip<V>(storage: map<string, string>, key: string, initialValue: V, v: V,
                                parse: string -> Option<V>, stringify: V -> string)
    requires stringify(v) != "" && parse(stringify(v)) == Some(v)
    ensures InitialValue(storage[key := stringify(v)], key, initialValue, parse) == v
  {
  }

  // ---------------------------------------------------------------------
  // usePodActions
  // ---------------------------------------------------------------------

  /** What an action reports through `onSuccess` / `onError`, when the
      caller supplied that callback. */
  datatype Report = Succeeded(message: string) | Errored(message: string)

  /** One pod action: the request issued, the callback invoked, and the
      promise's outcome (a failure is re-thrown). */
  datatype ActionResult<T> = ActionResult(request: Request, report: Option<Report>, result: Outcome<T>)

  /** The body of `createPod(serviceType, customImage)`. */
  function CreatePodPayload(serviceType: string, customImage: Option<string>): (body: Body)
    ensures body.PodPayload? && body.serviceType == serviceType
    ensures body.customImage == if serviceType == "custom" then customImage else None
  {
    PodPayload(serviceType, if serviceType == "custom" then customImage else None)
  }

  /** The shared try/catch shape of the four actions. */
  function RunAction<T>(request: Request, hasOnSuccess: bool, hasOnError: bool,
                        successMessage: Option<string>, fallback: string, outcome: Outcome<T>): (a: ActionResult<T>)
    ensures a.request == request && a.result == outcome
    ensures outcome.Ok? ==> a.report == (if hasOnSuccess && successMessage.Some? then Some(Succeeded(successMessage.value)) else None)
    ensures outcome.Failed? ==> a.report == (if hasOnError then Some(Errored(DetailOr(outcome.error, fallback))) else None)
  {
    match outcome
    case Ok(_) =>
      ActionResult(request, if hasOnSuccess && successMessage.Some? then Some(Succeeded(successMessage.value)) else None, outcome)
    case Failed(e) =>
      ActionResult(request, if hasOnError then Some(Errored(DetailOr(e, fallback))) else None, outcome)
  }

  function DeletePod<T>(storage: map<string, string>, podName: string, hasOnSuccess: bool, hasOnError: bool,
                        outcome: Outcome<T>): (a: ActionResult<T>)
    ensures a.request == Request(DELETE, Pod(podName), NoBody, Some(AuthHeader(storage)))
    ensures outcome.Ok? && hasOnSuccess ==> a.report == Some(Succeeded("Pod deleted successfully"))
    ensures outcome.Failed? && hasOnError ==> a.report == Some(Errored(DetailOr(outcome.error, "Failed to delete pod")))
    ensures a.result == outcome
  {
    RunAction(Request(DELETE, Pod(podName), NoBody, Some(AuthHeader(storage))), hasOnSuccess, hasOnError,
              Some("Pod deleted successfully"), "Failed to delete pod", outcome)
  }

  function ViewLogs<T>(storage: map<string, string>, podName: string, hasOnError: bool,
                       outcome: Outcome<T>): (a: ActionResult<T>)
    ensures a.request == Request(GET, PodLogs(podName), NoBody, Some(AuthHeader(storage)))
    ensures outcome.Ok? ==> a.report == None
    ensures outcome.Failed? && hasOnError ==> a.report == Some(Errored(DetailOr(outcome.error, "Failed to fetch logs")))
    ensures a.result == outcome
  {
    RunAction(Request(GET, PodLogs(podName), NoBody, Some(AuthHeader(storage))), true, hasOnError,
              None, "Failed to fetch logs", outcome)
  }

  function ViewMetrics<T>(storage: map<string, string>, podName: string, hasOnError: bool,
                          outcome: Outcome<T>): (a: ActionResult<T>)
    ensures a.request == Request(GET, PodMetrics(podName), NoBody, Some(AuthHeader(storage)))
    ensures outcome.Ok? ==> a.report == None
    ensures outcome.Failed? && hasOnError ==> a.report == Some(Errored(DetailOr(outcome.error, "Failed to fetch metrics")))
    ensures a.result == outcome
  {
    RunAction(Request(GET, PodMetrics(podName), NoBody, Some(AuthHeader(storage))), true, hasOnError,
              None, "Failed to fetch metrics", outcome)
  }

  function CreatePod<T>(storage: map<string, string>, serviceType: string, customImage: Option<string>,
                        hasOnSuccess: bool, hasOnError: bool, outcome: Outcome<T>): (a: ActionResult<T>)
    ensures a.request.verb == POST && a.request.endpoint == Pods
    ensures a.request.body == CreatePodPayload(serviceType, customImage)
    ensures a.request.authorization == Some(AuthHeader(storage))
    ensures outcome.Ok? && hasOnSuccess ==> a.report == Some(Succeeded("Pod created successfully"))
    ensures outcome.Failed? && hasOnError ==> a.report == Some(Errored(DetailOr(outcome.error, "Failed to create pod")))
    ensures a.result == outcome
  {
    RunAction(Request(POST, Pods, CreatePodPayload(serviceType, customImage), Some(AuthHeader(storage))),
              hasOnSuccess, hasOnError, Some("Pod created successfully"), "Failed to create pod", outcome)
  }

  /** A failed action always reports a non-empty message to `onError`, and
      the server's own detail takes precedence over the fixed fallback. */
  lemma ErrorReportsPreferDetail<T>(storage: map<string, string>, podName: string, e: HttpError)
    ensures var a := DeletePod<T>(storage, podName, true, true, Failed(e));
      a.report.Some? && a.report.value.Errored? && a.report.value.message != ""
      && (HasDetail(e) ==> a.report.value.message == e.response.value.detail.value)
      && a.result.Failed?
  {
  }

  /** A custom image reaches the server only with the 'custom' type. */
  lemma CustomImageOnlyForCustom(serviceType: string, customImage: Option<string>)
    ensures CreatePodPayload(serviceType, customImage).customImage.Some? ==> serviceType == "custom" && customImage.Some?
  {
  }
}
