/** The backend's `POST /create-workspace` endpoint: a customer name is
    normalised into a namespace and a deployment name, then two cluster calls
    are made (create the namespace, create an nginx deployment in it) and
    their outcomes are mapped to an HTTP response. The cluster client is
    replaced by the replies it gives. */
module Workspace {

  // ---------------------------------------------------------------------
  // Name normalisation: `customer_name.lower().replace(" ", "-")`
  // ---------------------------------------------------------------------

  predicate IsUpperAscii(c: char) {
    'A' <= c <= 'Z'
  }

  /** `str.lower()` on one character, ASCII letters only. */
  function LowerChar(c: char): (r: char)
    ensures !IsUpperAscii(r)
    ensures !IsUpperAscii(c) ==> r == c
    ensures IsUpperAscii(c) ==> 'a' <= r <= 'z' && r as int - c as int == 32
  {
    if IsUpperAscii(c) then (c as int + 32) as char else c
  }

  /** `str.lower()` */
  function Lower(s: string): (r: string)
    ensures |r| == |s|
    ensures forall i :: 0 <= i < |s| ==> r[i] == LowerChar(s[i])
  {
    if s == [] then [] else [LowerChar(s[0])] + Lower(s[1..])
  }

  /** `str.replace(" ", "-")` */
  function ReplaceSpaces(s: string): (r: string)
    ensures |r| == |s|
    ensures forall i :: 0 <= i < |s| ==> r[i] == (if s[i] == ' ' then '-' else s[i])
  {
    if s == [] then [] else [if s[0] == ' ' then '-' else s[0]] + ReplaceSpaces(s[1..])
  }

  /** A name that normalisation leaves as it is. */
  predicate IsNormal(s: string) {
    forall i :: 0 <= i < |s| ==> s[i] != ' ' && !IsUpperAscii(s[i])
  }

  /** The customer name as it appears in cluster object names. */
  function Normalize(customerName: string): (r: string)
    ensures |r| == |customerName|
    ensures IsNormal(r)
  {
    ReplaceSpaces(Lower(customerName))
  }

  /** Normalising is idempotent: a normalised name is a fixed point. */
  lemma NormalizeIdempotent(s: string)
    ensures Normalize(Normalize(s)) == Normalize(s)
  {
    NormalFixedPoint(Normalize(s));
  }

  /** The fixed points of normalisation are exactly the normal names. */
  lemma NormalFixedPoint(s: string)
    ensures Normalize(s) == s <==> IsNormal(s)
  {
    if IsNormal(s) {
      var r := Normalize(s);
      forall i | 0 <= i < |s| ensures r[i] == s[i] {
        assert Lower(s)[i] == s[i];
      }
    }
  }

  /** Only case and spaces-versus-dashes are forgotten: a character of the
      normalised name is the character of the input up to those two. */
  lemma NormalizeAt(s: string, i: int)
    requires 0 <= i < |s|
    ensures s[i] == ' ' ==> Normalize(s)[i] == '-'
    ensures s[i] != ' ' && !IsUpperAscii(s[i]) ==> Normalize(s)[i] == s[i]
    ensures IsUpperAscii(s[i]) ==> Normalize(s)[i] as int == s[i] as int + 32
  {
    assert Lower(s)[i] == LowerChar(s[i]);
  }

  function NamespaceName(customerName: string): (ns: string)
    ensures |ns| == 4 + |customerName| && ns[..4] == "org-"
    ensures ns[4..] == Normalize(customerName)
  {
    "org-" + Normalize(customerName)
  }

  function DeploymentName(customerName: string): (d: string)
    ensures |d| == 6 + |customerName| && d[..6] == "nginx-"
    ensures d[6..] == Normalize(customerName)
  {
    "nginx-" + Normalize(customerName)
  }

  /** Two customer names get the same namespace (and so the same workspace)
      exactly when they agree after lower-casing and turning spaces into
      dashes; the same holds for the deployment name. */
  lemma EquivalentNamesShareNamespace(a: string, b: string)
    ensures NamespaceName(a) == NamespaceName(b) <==> Normalize(a) == Normalize(b)
    ensures DeploymentName(a) == DeploymentName(b) <==> Normalize(a) == Normalize(b)
  {
    if NamespaceName(a) == NamespaceName(b) {
      assert NamespaceName(a)[4..] == NamespaceName(b)[4..];
    }
    if DeploymentName(a) == DeploymentName(b) {
      assert DeploymentName(a)[6..] == DeploymentName(b)[6..];
    }
  }

  // ---------------------------------------------------------------------
  // The deployment object sent to the cluster
  // ---------------------------------------------------------------------

  datatype Container = Container(name: string, image: string, containerPorts: seq<int>)
  datatype PodTemplate = PodTemplate(labels: map<string, string>, containers: seq<Container>)
  datatype DeploymentSpec = DeploymentSpec(replicas: int, matchLabels: map<string, string>, template: PodTemplate)
  datatype Deployment = Deployment(apiVersion: string, kind: string, name: string, spec: DeploymentSpec)

  const AppLabels: map<string, string> := map["app" := "nginx"]

  function BuildDeployment(deploymentName: string): (d: Deployment)
    ensures d.name == deploymentName
    ensures d.apiVersion == "apps/v1" && d.kind == "Deployment"
    ensures d.spec.replicas == 1
    ensures d.spec.matchLabels == d.spec.template.labels == AppLabels
    ensures d.spec.template.containers == [Container("nginx", "nginx:latest", [80])]
  {
    var container := Container("nginx", "nginx:latest", [80]);
    var template := PodTemplate(AppLabels, [container]);
    Deployment("apps/v1", "Deployment", deploymentName, DeploymentSpec(1, AppLabels, template))
  }

  // ---------------------------------------------------------------------
  // create_workspace
  // ---------------------------------------------------------------------

  /** `client.exceptions.ApiException`: its status and its `str(e)`. */
  datatype ApiException = ApiException(status: int, text: string)

  /** What the cluster answered to one create call. */
  datatype ClusterReply = Created | Rejected(exception: ApiException)

  datatype ClusterCall =
    | CreateNamespace(name: string)
    | CreateNamespacedDeployment(namespace: string, body: Deployment)

  /** The endpoint's result: a JSON body, or a raised `HTTPException`. */
  datatype Response =
    | Body(status: string, namespace: string)
    | HttpException(statusCode: int, detail: string)

  /** The cluster calls issued, in order, and the response returned. */
  datatype Handled = Handled(calls: seq<ClusterCall>, response: Response)

  /** A create call that succeeded or found the object already there (409). */
  predicate Tolerated(reply: ClusterReply) {
    reply.Created? || reply.exception.status == 409
  }

  /** `create_workspace(request)`. The request's `service_type` is not used
      by the endpoint: every workspace gets the nginx deployment. */
  function CreateWorkspace(customerName: string, serviceType: string,
                           namespaceReply: ClusterReply, deploymentReply: ClusterReply): (h: Handled)
    ensures 1 <= |h.calls| <= 2
    ensures h.calls[0] == CreateNamespace(NamespaceName(customerName))
    // the deployment is attempted exactly when the namespace call was tolerated
    ensures |h.calls| == 2 <==> Tolerated(namespaceReply)
    ensures !Tolerated(namespaceReply) ==>
      h.response == HttpException(500, "Namespace error: " + namespaceReply.exception.text)
    ensures Tolerated(namespaceReply) ==>
      h.calls[1] == CreateNamespacedDeployment(NamespaceName(customerName), BuildDeployment(DeploymentName(customerName)))
    ensures Tolerated(namespaceReply) && deploymentReply.Created? ==>
      h.response == Body("Workspace created successfully", NamespaceName(customerName))
    ensures Tolerated(namespaceReply) && deploymentReply.Rejected? && deploymentReply.exception.status == 409 ==>
      h.response == Body("Workspace already exists", NamespaceName(customerName))
    ensures Tolerated(namespaceReply) && !Tolerated(deploymentReply) ==>
      h.response == HttpException(500, "Deployment error: " + deploymentReply.exception.text)
  {
    var namespaceName := NamespaceName(customerName);
    var nsCall := CreateNamespace(namespaceName);
    if !Tolerated(namespaceReply) then
      Handled([nsCall], HttpException(500, "Namespace error: " + namespaceReply.exception.text))
    else
      var body := BuildDeployment(DeploymentName(customerName));
      var calls := [nsCall, CreateNamespacedDeployment(namespaceName, body)];
      match deploymentReply
      case Created => Handled(calls, Body("Workspace created successfully", namespaceName))
      case Rejected(e) =>
        if e.status == 409 then Handled(calls, Body("Workspace already exists", namespaceName))
        else Handled(calls, HttpException(500, "Deployment error: " + e.text))
  }

  /** The endpoint answers with a body exactly when both calls were
      tolerated; any other outcome is a 500, never another code. */
  lemma CreateWorkspaceSucceedsIff(customerName: string, serviceType: string,
                                   namespaceReply: ClusterReply, deploymentReply: ClusterReply)
    ensures var h := CreateWorkspace(customerName, serviceType, namespaceReply, deploymentReply);
      && (h.response.Body? <==> Tolerated(namespaceReply) && Tolerated(deploymentReply))
      && (h.response.HttpException? ==> h.response.statusCode == 500)
      && (h.response.Body? ==> h.response.namespace == NamespaceName(customerName)
                               && IsNormal(h.response.namespace[4..]))
  {
  }

  /** The requested service type has no effect on what the endpoint does. */
  lemma ServiceTypeIgnored(customerName: string, t1: string, t2: string,
                           namespaceReply: ClusterReply, deploymentReply: ClusterReply)
    ensures CreateWorkspace(customerName, t1, namespaceReply, deploymentReply)
         == CreateWorkspace(customerName, t2, namespaceReply, deploymentReply)
  {
  }

  /** Repeating a request whose objects both already exist reports
      "Workspace already exists" for the same namespace. */
  lemma RepeatedRequestReportsExisting(customerName: string, serviceType: string, t1: string, t2: string)
    ensures CreateWorkspace(customerName, serviceType, Rejected(ApiException(409, t1)), Rejected(ApiException(409, t2))).response
         == Body("Workspace already exists", NamespaceName(customerName))
  {
  }
}
