/** api/register-handlers.go: the HTTP routes and their basic-auth guard.
    The global ServeMux becomes an object holding the registered routes. */
module Api {
  import opened Wrappers
  import opened Config

  /** validateCredentials: both parts must equal the configured ones. */
  function ValidateCredentials(c: Config, username: string, password: string): (r: bool)
    ensures r <==> username == c.username && password == c.password
  {
    username == c.username && password == c.password
  }

  /** The user and password of an Authorization: Basic header; None when
      req.BasicAuth() reports no usable header. */
  datatype Credentials = Credentials(user: string, pass: string)

  datatype HttpResponse = HttpResponse(status: int, headers: map<string, string>, body: string)

  /** What basicAuth does with a request: answer it itself, or call `next`
      without writing anything. */
  datatype Gate = Challenge(response: HttpResponse) | CallNext

  const Realm: string := "Basic realm=\"Restricted\""

  function BasicAuth(c: Config, credentials: Option<Credentials>): (r: Gate)
    ensures r.CallNext? <==> credentials.Some? && ValidateCredentials(c, credentials.value.user, credentials.value.pass)
    ensures r.Challenge? ==>
      r.response.status == 401 && "WWW-Authenticate" in r.response.headers &&
      r.response.headers["WWW-Authenticate"] == Realm && r.response.body == "Unauthorized"
  {
    match credentials
    case None => Challenge(HttpResponse(401, map["WWW-Authenticate" := Realm], "Unauthorized"))
    case Some(cr) =>
      if !ValidateCredentials(c, cr.user, cr.pass) then
        Challenge(HttpResponse(401, map["WWW-Authenticate" := Realm], "Unauthorized"))
      else
        CallNext
  }

  /** readinessProbe: 200 "Ready", whatever the request. */
  function ReadinessProbe(): (r: HttpResponse)
    ensures r.status == 200 && r.body == "Ready" && r.headers == map[]
  {
    HttpResponse(200, map[], "Ready")
  }

  datatype Handler = OpaDecisionHandler | BundleServerHandler | ReadinessProbeHandler | HealthCheckHandler | StatisticsHandler

  /** A registered pattern: its handler, and whether basicAuth wraps it. */
  datatype Route = Route(handler: Handler, guarded: bool)

  const DecisionPath: string := "/policy/pdpx/v1/decision"
  const BundlesPath: string := "/opa/bundles/"
  const ReadyPath: string := "/ready"
  const HealthCheckPath: string := "/policy/pdpx/v1/healthcheck"
  const StatisticsPath: string := "/policy/pdpx/v1/statistics"

  const Patterns: set<string> := {DecisionPath, BundlesPath, ReadyPath, HealthCheckPath, StatisticsPath}

  /** Who handles a request to a registered route. */
  datatype Dispatch = Rejected(response: HttpResponse) | Reached(handler: Handler)

  function Serve(c: Config, route: Route, credentials: Option<Credentials>): (r: Dispatch)
    ensures !route.guarded ==> r == Reached(route.handler)
    ensures route.guarded ==> (r == Reached(route.handler) <==> BasicAuth(c, credentials).CallNext?)
    ensures r.Rejected? ==> r.response.status == 401
  {
    if !route.guarded then Reached(route.handler)
    else
      match BasicAuth(c, credentials)
      case Challenge(response) => Rejected(response)
      case CallNext => Reached(route.handler)
  }

  class Mux {
    var routes: map<string, Route>

    constructor ()
      ensures routes == map[]
    {
      routes := map[];
    }

    /** RegisterHandlers. http.Handle panics on a pattern registered twice,
        so the five patterns must be new. */
    method RegisterHandlers()
      requires forall p :: p in Patterns ==> p !in routes
      modifies this
      ensures routes.Keys == old(routes).Keys + Patterns
      ensures forall p :: p in old(routes) ==> routes[p] == old(routes)[p]
      ensures routes[DecisionPath] == Route(OpaDecisionHandler, true)
      ensures routes[BundlesPath] == Route(BundleServerHandler, false)
      ensures routes[ReadyPath] == Route(ReadinessProbeHandler, false)
      ensures routes[HealthCheckPath] == Route(HealthCheckHandler, true)
      ensures routes[StatisticsPath] == Route(StatisticsHandler, true)
    {
      routes := routes[DecisionPath := Route(OpaDecisionHandler, true)];
      routes := routes[BundlesPath := Route(BundleServerHandler, false)];
      routes := routes[ReadyPath := Route(ReadinessProbeHandler, false)];
      routes := routes[HealthCheckPath := Route(HealthCheckHandler, true)];
      routes := routes[StatisticsPath := Route(StatisticsHandler, true)];
    }
  }

  /** After registration, the decision, healthcheck and statistics
      endpoints answer 401 to a request without the configured
      credentials, and the bundle and readiness endpoints never ask. */
  lemma {:induction false} GuardedEndpoints(c: Config, routes: map<string, Route>, path: string, credentials: Option<Credentials>)
    requires Patterns <= routes.Keys
    requires routes[DecisionPath].guarded && routes[HealthCheckPath].guarded && routes[StatisticsPath].guarded
    requires !routes[BundlesPath].guarded && !routes[ReadyPath].guarded
    requires path in Patterns
    ensures path in {DecisionPath, HealthCheckPath, StatisticsPath} ==>
      (Serve(c, routes[path], credentials).Reached? <==>
         credentials.Some? && credentials.value.user == c.username && credentials.value.pass == c.password)
    ensures path in {BundlesPath, ReadyPath} ==> Serve(c, routes[path], credentials) == Reached(routes[path].handler)
  {
    var gate := BasicAuth(c, credentials);
    if credentials.Some? {
      var ok := ValidateCredentials(c, credentials.value.user, credentials.value.pass);
      assert ok <==> credentials.value.user == c.username && credentials.value.pass == c.password;
    }
  }
}
