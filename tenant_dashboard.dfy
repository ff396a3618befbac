/** The tenant dashboard: it lists the company's pods, creates a pod of the
    selected service type and deletes a pod after a confirmation. */
module TenantDashboard {
  import opened Http
  import opened Browser
  import Monitoring

  const DefaultServiceType: string := "nginx"
  const CreateFailed: string := "Failed to create pod"
  const DeleteFailed: string := "Failed to delete pod"

  datatype TenantPod = TenantPod(name: string, podType: string, status: string, age: string)

  /** `sub` occurs in `s` at `i`. */
  predicate OccursAt(s: string, sub: string, i: int) {
    0 <= i && i + |sub| <= |s| && s[i..i + |sub|] == sub
  }

  /** `s.includes(sub)`, searched from the front. */
  function Includes(s: string, sub: string): bool
    decreases |s|
  {
    if |s| < |sub| then false
    else if s[..|sub|] == sub then true
    else Includes(s[1..], sub)
  }

  /** The search finds `sub` exactly when it occurs somewhere. */
  lemma {:induction false} IncludesIff(s: string, sub: string)
    ensures Includes(s, sub) <==> exists i :: OccursAt(s, sub, i)
    decreases |s|
  {
    if |s| < |sub| {
    } else if s[..|sub|] == sub {
      assert OccursAt(s, sub, 0);
    } else {
      IncludesIff(s[1..], sub);
      if exists i :: OccursAt(s[1..], sub, i) {
        var i :| OccursAt(s[1..], sub, i);
        assert s[1..][i..i + |sub|] == s[i + 1..i + 1 + |sub|];
        assert OccursAt(s, sub, i + 1);
      }
      if exists i :: OccursAt(s, sub, i) {
        var i :| OccursAt(s, sub, i);
        assert i != 0;
        assert s[1..][i - 1..i - 1 + |sub|] == s[i..i + |sub|];
        assert OccursAt(s[1..], sub, i - 1);
      }
    }
  }

  /** `pod.status.includes('Ready') ? 'success' : 'warning'` */
  function StatusChip(status: string): (c: Monitoring.ChipColor)
    ensures c == Monitoring.SuccessChip <==> exists i :: OccursAt(status, "Ready", i)
    ensures c == Monitoring.WarningChip <==> !exists i :: OccursAt(status, "Ready", i)
  {
    IncludesIff(status, "Ready");
    if Includes(status, "Ready") then Monitoring.SuccessChip else Monitoring.WarningChip
  }

  /** A status that merely starts differently still counts as ready when
      "Ready" appears later in it. */
  lemma ReadyAnywhere(prefix: string, suffix: string)
    ensures StatusChip(prefix + "Ready" + suffix) == Monitoring.SuccessChip
  {
    var s := prefix + "Ready" + suffix;
    assert s[|prefix|..|prefix| + 5] == "Ready";
    assert OccursAt(s, "Ready", |prefix|);
  }

  function FetchRequest(token: Option<string>): (r: Request)
    ensures r.verb == GET && r.endpoint == MyDeployments && r.body == NoBody
    ensures r.authorization == Some(BearerHeader(token))
  {
    Request(GET, MyDeployments, NoBody, Some(BearerHeader(token)))
  }

  function CreateRequest(serviceType: string, token: Option<string>): (r: Request)
    ensures r.verb == POST && r.endpoint == Pods && r.body == ServiceTypeOnly(serviceType)
    ensures r.authorization == Some(BearerHeader(token))
  {
    Request(POST, Pods, ServiceTypeOnly(serviceType), Some(BearerHeader(token)))
  }

  function DeleteRequest(podName: string, token: Option<string>): (r: Request)
    ensures r.verb == DELETE && r.endpoint == Pod(podName) && r.body == NoBody
    ensures r.authorization == Some(BearerHeader(token))
  {
    Request(DELETE, Pod(podName), NoBody, Some(BearerHeader(token)))
  }

  /** A 401 from the pod list: the session is over. */
  predicate Unauthorized<T>(outcome: Outcome<T>) {
    outcome.Failed? && HasStatus(outcome.error, 401)
  }

  /** The pod list after a fetch: replaced wholesale on success, kept
      otherwise. */
  function PodsAfter(pods: seq<TenantPod>, outcome: Outcome<seq<TenantPod>>): (r: seq<TenantPod>)
    ensures outcome.Ok? ==> r == outcome.data
    ensures outcome.Failed? ==> r == pods
  {
    if outcome.Ok? then outcome.data else pods
  }

  /** Storage after a fetch: the session keys go on a 401 only. */
  function StorageAfter(storage: map<string, string>, outcome: Outcome<seq<TenantPod>>): (r: map<string, string>)
    ensures Unauthorized(outcome) ==> r == storage - {"token", "company"} && "token" !in r && "company" !in r
    ensures !Unauthorized(outcome) ==> r == storage
  {
    if Unauthorized(outcome) then storage - {"token", "company"} else storage
  }

  /** Navigation after a fetch: to the login page on a 401 only. */
  function HistoryAfter(history: seq<string>, outcome: Outcome<seq<TenantPod>>): (r: seq<string>)
    ensures Unauthorized(outcome) ==> r == history + ["/"]
    ensures !Unauthorized(outcome) ==> r == history
  {
    if Unauthorized(outcome) then history + ["/"] else history
  }

  class TenantDashboardPage {
    var pods: seq<TenantPod>
    /** The create dialog. */
    var open: bool
    var serviceType: string

    constructor ()
      ensures pods == [] && !open && serviceType == DefaultServiceType
    {
      pods := [];
      open := false;
      serviceType := DefaultServiceType;
    }

    /** The empty-state message under the pod grid. */
    predicate ShowsEmptyState()
      reads this
    {
      |pods| == 0
    }

    method OpenCreate()
      modifies this
      ensures open && pods == old(pods) && serviceType == old(serviceType)
    {
      open := true;
    }

    /** The dialog's Cancel button and its backdrop close. */
    method CloseCreate()
      modifies this
      ensures !open && pods == old(pods) && serviceType == old(serviceType)
    {
      open := false;
    }

    method SelectServiceType(t: string)
      modifies this
      ensures serviceType == t && open == old(open) && pods == old(pods)
    {
      serviceType := t;
    }

    method HandleLogout(b: Browser)
      modifies b
      ensures b.storage == old(b.storage) - {"token", "company"}
      ensures b.history == old(b.history) + ["/"]
      ensures b.requests == old(b.requests) && b.alerts == old(b.alerts)
    {
      b.RemoveItem("token");
      b.RemoveItem("company");
      b.Navigate("/");
    }

    /** `fetchPods()` with `outcome` the result of GET /my-deployments. */
    method FetchPods(b: Browser, outcome: Outcome<seq<TenantPod>>)
      modifies this, b
      ensures b.requests == old(b.requests) + [FetchRequest(old(b.GetItem("token")))]
      ensures pods == PodsAfter(old(pods), outcome)
      ensures b.storage == StorageAfter(old(b.storage), outcome)
      ensures b.history == HistoryAfter(old(b.history), outcome)
      ensures open == old(open) && serviceType == old(serviceType) && b.alerts == old(b.alerts)
    {
      var token := b.GetItem("token");
      b.Send(FetchRequest(token));
      match outcome {
        case Ok(list) =>
          pods := list;
        case Failed(e) =>
          if HasStatus(e, 401) {
            HandleLogout(b);
          }
      }
    }

    /** `handleCreate()` with `outcome` the result of POST /pods and
        `refetch` the result of the `fetchPods()` a success starts. */
    method HandleCreate(b: Browser, outcome: Outcome<()>, refetch: Outcome<seq<TenantPod>>)
      modifies this, b
      ensures serviceType == old(serviceType)
      ensures outcome.Ok? ==>
        && !open
        && b.requests == old(b.requests) + [CreateRequest(old(serviceType), old(b.GetItem("token"))), FetchRequest(old(b.GetItem("token")))]
        && pods == PodsAfter(old(pods), refetch)
        && b.storage == StorageAfter(old(b.storage), refetch)
        && b.history == HistoryAfter(old(b.history), refetch)
        && b.alerts == old(b.alerts)
      ensures outcome.Failed? ==>
        && open == old(open) && pods == old(pods)
        && b.requests == old(b.requests) + [CreateRequest(old(serviceType), old(b.GetItem("token")))]
        && b.alerts == old(b.alerts) + [CreateFailed]
        && b.storage == old(b.storage) && b.history == old(b.history)
    {
      var token := b.GetItem("token");
      b.Send(CreateRequest(serviceType, token));
      match outcome {
        case Ok(_) =>
          open := false;
          FetchPods(b, refetch);
        case Failed(_) =>
          b.Alert(CreateFailed);
      }
    }

    /** `handleDelete(podName)` with `confirmed` the answer to the
        confirmation, `outcome` the result of the DELETE and `refetch` the
        result of the `fetchPods()` a success starts. */
    method HandleDelete(b: Browser, podName: string, confirmed: bool, outcome: Outcome<()>, refetch: Outcome<seq<TenantPod>>)
      modifies this, b
      ensures open == old(open) && serviceType == old(serviceType)
      ensures !confirmed ==>
        && pods == old(pods) && b.requests == old(b.requests) && b.alerts == old(b.alerts)
        && b.storage == old(b.storage) && b.history == old(b.history)
      ensures confirmed && outcome.Ok? ==>
        && b.requests == old(b.requests) + [DeleteRequest(podName, old(b.GetItem("token"))), FetchRequest(old(b.GetItem("token")))]
        && pods == PodsAfter(old(pods), refetch)
        && b.storage == StorageAfter(old(b.storage), refetch)
        && b.history == HistoryAfter(old(b.history), refetch)
        && b.alerts == old(b.alerts)
      ensures confirmed && outcome.Failed? ==>
        && pods == old(pods)
        && b.requests == old(b.requests) + [DeleteRequest(podName, old(b.GetItem("token")))]
        && b.alerts == old(b.alerts) + [DeleteFailed]
        && b.storage == old(b.storage) && b.history == old(b.history)
    {
      if !confirmed {
        return;
      }
      var token := b.GetItem("token");
      b.Send(DeleteRequest(podName, token));
      match outcome {
        case Ok(_) =>
          FetchPods(b, refetch);
        case Failed(_) =>
          b.Alert(DeleteFailed);
      }
    }
  }
}
