/** The browser environment the client pages act on: `localStorage` as a
    map, the router's navigation history, the log of HTTP requests issued,
    and the `window.alert` messages shown. */
module Browser {
  import opened Http

  datatype Method = GET | POST | DELETE

  /** The backend endpoints the clients call. */
  datatype Endpoint =
    | TokenEndpoint                 // POST /token
    | RegisterEndpoint              // POST /register
    | MyDeployments                 // GET /my-deployments
    | Pods                          // GET, POST /pods
    | Pod(name: string)             // DELETE /pods/{name}
    | PodLogs(name: string)         // GET /pods/{name}/logs
    | PodMetrics(name: string)      // GET /pods/{name}/metrics
    | MonitoringEndpoint            // GET /monitoring
    | AdminStats                    // GET /admin/stats
    | AdminCompanies                // GET /admin/companies
    | AdminUsers                    // GET /admin/users
    | AdminCompany(company: string) // DELETE /admin/companies/{name}
    | AdminUser(id: int)            // DELETE /admin/users/{id}

  datatype Body =
    | NoBody
    | ServiceTypeOnly(serviceType: string)                        // { service_type }
    | PodPayload(serviceType: string, customImage: Option<string>) // { service_type, custom_image }
    | LoginForm(username: string, password: string)
    | Registration(username: string, password: string, companyName: string)

  datatype Request = Request(verb: Method, endpoint: Endpoint, body: Body, authorization: Option<string>)

  class Browser {
    /** `localStorage`: only string values are stored. */
    var storage: map<string, string>
    /** Every `navigate(path)` in order. */
    var history: seq<string>
    /** The page the session started on. */
    const start: string
    /** Every request issued, in order. */
    var requests: seq<Request>
    /** Every `window.alert` message, in order. */
    var alerts: seq<string>

    constructor (initialStorage: map<string, string>, startPath: string)
      ensures storage == initialStorage && start == startPath
      ensures history == [] && requests == [] && alerts == []
    {
      storage := initialStorage;
      start := startPath;
      history := [];
      requests := [];
      alerts := [];
    }

    /** `localStorage.getItem(key)`, None standing for null. */
    function GetItem(key: string): (r: Option<string>)
      reads this
      ensures r.Some? <==> key in storage
      ensures r.Some? ==> r.value == storage[key]
    {
      if key in storage then Some(storage[key]) else None
    }

    /** `localStorage.getItem(key)` is truthy: present and not empty. */
    predicate Holds(key: string)
      reads this
    {
      key in storage && storage[key] != ""
    }

    /** The router's current pathname. */
    function Path(): (p: string)
      reads this
      ensures history != [] ==> p == history[|history| - 1]
      ensures history == [] ==> p == start
    {
      if history == [] then start else history[|history| - 1]
    }

    method SetItem(key: string, value: string)
      modifies this
      ensures storage == old(storage)[key := value]
      ensures history == old(history) && requests == old(requests) && alerts == old(alerts)
    {
      storage := storage[key := value];
    }

    method RemoveItem(key: string)
      modifies this
      ensures storage == old(storage) - {key}
      ensures history == old(history) && requests == old(requests) && alerts == old(alerts)
    {
      storage := storage - {key};
    }

    method Navigate(path: string)
      modifies this
      ensures history == old(history) + [path] && Path() == path
      ensures storage == old(storage) && requests == old(requests) && alerts == old(alerts)
    {
      history := history + [path];
    }

    method Send(r: Request)
      modifies this
      ensures requests == old(requests) + [r]
      ensures storage == old(storage) && history == old(history) && alerts == old(alerts)
    {
      requests := requests + [r];
    }

    method Alert(message: string)
      modifies this
      ensures alerts == old(alerts) + [message]
      ensures storage == old(storage) && history == old(history) && requests == old(requests)
    {
      alerts := alerts + [message];
    }
  }
}
