/** The HTTP control server. A reconfigure request becomes a routing intent
    that the engine applies; a remove request goes to the Remove capability;
    the answer is a status code and, on success, a JSON echo. On startup the
    server runs its Run step, replays the fleet and only then listens. */
module ControlServer {
  import opened Strings
  import opened Failures
  import opened Template
  import opened Kv
  import opened Engine

  const ReconfigurePath := "/v1/docker-flow-proxy/reconfigure"
  const RemovePath := "/v1/docker-flow-proxy/remove"
  const JsonContentType := "application/json"

  /** The liveness routes, answered with 200 and nothing else. */
  predicate IsHealthCheck(path: string) {
    path == "/v1/test" || path == "/v2/test"
  }

  /** A request: its URL path and its query parameters. */
  datatype Request = Request(path: string, query: map<string, string>)

  /** req.URL.Query().Get(key): "" for an absent parameter. */
  function Param(req: Request, key: string): string {
    if key in req.query then req.query[key] else ""
  }

  /** The intent a reconfigure request describes. servicePath is a
      comma-separated list, absent meaning no paths; skipCheck is parsed like
      strconv.ParseBool, anything unparsable meaning false. */
  function IntentOf(req: Request): (r: ServiceReconfigure)
    ensures r.servicePath == [] <==> Param(req, "servicePath") == ""
    ensures Join(r.servicePath, ',') == Param(req, "servicePath")
    ensures NoSep(r.servicePath, ',')
  {
    var paths := Param(req, "servicePath");
    if paths != "" then
      JoinSplit(paths, ',');
      SplitNoSep(paths, ',');
      IntentWith(req, Split(paths, ','))
    else
      IntentWith(req, [])
  }

  /** The intent of a request, with the path list given. */
  function IntentWith(req: Request, paths: seq<string>): ServiceReconfigure {
    ServiceReconfigure(
      Param(req, "serviceName"),
      Param(req, "serviceColor"),
      paths,
      Param(req, "serviceDomain"),
      Param(req, "consulTemplatePath"),
      Param(req, "pathType"),
      ParseBool(Param(req, "skipCheck")))
  }

  /** What the server does with a request. */
  datatype Action =
    | Healthy
    | NotFound
    | BadRequest
    | Reconfiguring(intent: ServiceReconfigure)
    | Removing(serviceName: string)

  function Route(req: Request): (r: Action)
    ensures r == Healthy <==> IsHealthCheck(req.path)
    ensures r.Reconfiguring? ==> req.path == ReconfigurePath && r.intent == IntentOf(req)
    ensures r.Removing? ==> req.path == RemovePath && r.serviceName == Param(req, "serviceName") != ""
  {
    if IsHealthCheck(req.path) then Healthy
    else if req.path == ReconfigurePath then
      var sr := IntentOf(req);
      if sr.serviceName == "" || (sr.servicePath == [] && sr.consulTemplatePath == "") then BadRequest
      else Reconfiguring(sr)
    else if req.path == RemovePath then
      if Param(req, "serviceName") == "" then BadRequest else Removing(Param(req, "serviceName"))
    else NotFound
  }

  /** The JSON body of a successful answer. */
  datatype Response = Response(
    status: string,
    serviceName: string,
    serviceColor: string,
    servicePath: seq<string>,
    serviceDomain: string,
    consulTemplatePath: string,
    pathType: string,
    skipCheck: bool)

  /** The intent a JSON answer reports, field by field. */
  function Reported(r: Response): ServiceReconfigure {
    ServiceReconfigure(r.serviceName, r.serviceColor, r.servicePath, r.serviceDomain,
                       r.consulTemplatePath, r.pathType, r.skipCheck)
  }

  /** The answer to an applied intent: an "OK" that reports every field it
      was given. */
  function Echo(sr: ServiceReconfigure): (r: Response)
    ensures r.status == "OK" && Reported(r) == sr
  {
    Response("OK", sr.serviceName, sr.serviceColor, sr.servicePath, sr.serviceDomain,
             sr.consulTemplatePath, sr.pathType, sr.skipCheck)
  }

  /** The answer to a removal: the service name alone, as the echo of an
      intent that names only the service. */
  function RemovedEcho(serviceName: string): (r: Response)
    ensures r == Echo(Named(serviceName))
  {
    Response("OK", serviceName, "", [], "", "", "", false)
  }

  /** The echo is an "OK" that determines the intent it answers: two
      intents get the same echo exactly when they are the same. */
  lemma EchoDeterminesIntent(a: ServiceReconfigure, b: ServiceReconfigure)
    ensures Echo(a).status == "OK"
    ensures Echo(a) == Echo(b) <==> a == b
  {
  }

  /** A call made on the http.ResponseWriter. */
  datatype WriterEvent = ContentType(value: string) | Status(code: int) | Body(response: Response)

  class ResponseWriter {
    var events: seq<WriterEvent>

    constructor()
      ensures events == []
    {
      events := [];
    }

    method SetContentType(value: string)
      modifies this
      ensures events == old(events) + [ContentType(value)]
    {
      events := events + [ContentType(value)];
    }

    method WriteHeader(code: int)
      modifies this
      ensures events == old(events) + [Status(code)]
    {
      events := events + [Status(code)];
    }

    method Write(response: Response)
      modifies this
      ensures events == old(events) + [Body(response)]
    {
      events := events + [Body(response)];
    }
  }

  /** The status a client sees: the first one written, 200 when none is. */
  function StatusOf(events: seq<WriterEvent>): int {
    if events == [] then 200
    else if events[0].Status? then events[0].code
    else StatusOf(events[1..])
  }

  /** The answer to a control request once the work is done: 500 and no
      body on failure, 200 and the JSON echo on success. */
  function Reply(failed: bool, body: Response): seq<WriterEvent> {
    if failed then [Status(500)] else [Status(200), Body(body)]
  }

  /** What the writer received, and what the engine did. */
  datatype Served = Served(events: seq<WriterEvent>, outcome: Outcome)

  datatype Server = Server(ip: string, port: string, base: BaseReconfigure)
  {
    method ServeHTTP(w: ResponseWriter, req: Request, env: Env)
      modifies w, env
      ensures var sv := ServeSpec(this, req, env.caps, old(env.kv));
              && w.events == old(w.events) + sv.events
              && env.log == old(env.log) + sv.outcome.effects
              && env.kv == sv.outcome.kv
    {
      match Route(req) {
        case Healthy =>
          w.WriteHeader(200);
        case NotFound =>
          w.WriteHeader(404);
        case BadRequest =>
          w.SetContentType(JsonContentType);
          w.WriteHeader(400);
        case Reconfiguring(sr) =>
          w.SetContentType(JsonContentType);
          var err := NewReconfigure(base, sr).Execute(env);
          Respond(w, err.Some?, Echo(sr));
        case Removing(name) =>
          w.SetContentType(JsonContentType);
          var ok := env.Remove(name, base.configsPath, base.templatesPath);
          Respond(w, !ok, RemovedEcho(name));
      }
    }

    /** Write the status, and the body when the work succeeded. */
    static method Respond(w: ResponseWriter, failed: bool, body: Response)
      modifies w
      ensures w.events == old(w.events) + Reply(failed, body)
    {
      if failed {
        w.WriteHeader(500);
      } else {
        w.WriteHeader(200);
        w.Write(body);
      }
    }

    /** Run the startup step, replay the fleet, then listen on ip:port;
        the first failure aborts startup. */
    method Execute(env: Env) returns (err: Option<Error>)
      modifies env
      ensures var o := StartupSpec(this, env.caps, old(env.kv));
              err == o.error && env.log == old(env.log) + o.effects && env.kv == old(env.kv)
    {
      var ok := env.RunStartup();
      if !ok {
        return Some(RunError);
      }
      err := NewReconfigure(base, Named("")).ReloadAllServices(base.consulAddress, env);
      if err.Some? {
        return;
      }
      var address := ListenAddress(this);
      ok := env.ListenAndServe(address);
      if !ok {
        return Some(ListenError(address));
      }
      return None;
    }
  }

  function ListenAddress(s: Server): string {
    s.ip + ":" + s.port
  }

  function ServeSpec(s: Server, req: Request, caps: Capabilities, kv: map<string, string>): Served {
    match Route(req)
    case Healthy => Served([Status(200)], Outcome(None, [], kv))
    case NotFound => Served([Status(404)], Outcome(None, [], kv))
    case BadRequest => Served([ContentType(JsonContentType), Status(400)], Outcome(None, [], kv))
    case Reconfiguring(sr) =>
      var o := ExecuteSpec(NewReconfigure(s.base, sr), caps, kv);
      Served([ContentType(JsonContentType)] + Reply(o.error.Some?, Echo(sr)), o)
    case Removing(name) =>
      var removal := RemoveService(name, s.base.configsPath, s.base.templatesPath);
      var err := if caps.removeFails then Some(RemoveError(name)) else None;
      Served([ContentType(JsonContentType)] + Reply(caps.removeFails, RemovedEcho(name)), Outcome(err, [removal], kv))
  }

  function StartupSpec(s: Server, caps: Capabilities, kv: map<string, string>): Outcome {
    if caps.runFails then Outcome(Some(RunError), [StartupRun], kv)
    else
      var replay := ReplaySpec(NewReconfigure(s.base, Named("")), s.base.consulAddress, caps, kv);
      if replay.error.Some? then Outcome(replay.error, [StartupRun] + replay.effects, kv)
      else
        var address := ListenAddress(s);
        var err := if caps.listenFails then Some(ListenError(address)) else None;
        Outcome(err, [StartupRun] + replay.effects + [Listen(address)], kv)
  }

  // ---------------------------------------------------------------------------
  // Routing
  // ---------------------------------------------------------------------------

  /** Only the two liveness paths and the two control paths are known. */
  lemma RouteNotFound(req: Request)
    ensures Route(req) == NotFound <==>
              !IsHealthCheck(req.path) && req.path != ReconfigurePath && req.path != RemovePath
  {
  }

  /** A reconfigure request is refused when it names no service, or gives
      neither paths nor a custom template; a remove request when it names
      no service. Nothing else is refused. */
  lemma RouteRejects(req: Request)
    ensures Route(req) == BadRequest <==>
              || (req.path == ReconfigurePath
                  && (Param(req, "serviceName") == ""
                      || (Param(req, "servicePath") == "" && Param(req, "consulTemplatePath") == "")))
              || (req.path == RemovePath && Param(req, "serviceName") == "")
  {
    assert Param(req, "servicePath") != "" ==> Split(Param(req, "servicePath"), ',') != [];
  }

  /** An accepted reconfigure request applies exactly the intent its
      parameters describe: the path list is the comma-split servicePath,
      and it is the one the request gave. */
  lemma RouteIntent(req: Request)
    requires Route(req).Reconfiguring?
    ensures var sr := Route(req).intent;
            && req.path == ReconfigurePath
            && sr.serviceName == Param(req, "serviceName") != ""
            && sr.serviceColor == Param(req, "serviceColor")
            && sr.serviceDomain == Param(req, "serviceDomain")
            && sr.consulTemplatePath == Param(req, "consulTemplatePath")
            && sr.pathType == Param(req, "pathType")
            && sr.skipCheck == ParseBool(Param(req, "skipCheck"))
            && Join(sr.servicePath, ',') == Param(req, "servicePath")
            && NoSep(sr.servicePath, ',')
            && (sr.servicePath != [] || sr.consulTemplatePath != "")
  {
  }

  /** The query a client sends for an intent. */
  function RequestFor(sr: ServiceReconfigure): Request {
    Request(ReconfigurePath, map[
      "serviceName" := sr.serviceName,
      "serviceColor" := sr.serviceColor,
      "servicePath" := Join(sr.servicePath, ','),
      "serviceDomain" := sr.serviceDomain,
      "consulTemplatePath" := sr.consulTemplatePath,
      "pathType" := sr.pathType,
      "skipCheck" := FormatBool(sr.skipCheck)])
  }

  /** An intent with a name, comma-free paths and something to route is
      applied unchanged when a client sends it as a query. */
  lemma RequestRoundTrip(sr: ServiceReconfigure)
    requires sr.serviceName != ""
    requires NoSep(sr.servicePath, ',')
    requires Join(sr.servicePath, ',') != "" || (sr.servicePath == [] && sr.consulTemplatePath != "")
    ensures Route(RequestFor(sr)) == Reconfiguring(sr)
  {
    var req := RequestFor(sr);
    assert Param(req, "serviceName") == sr.serviceName;
    assert Param(req, "servicePath") == Join(sr.servicePath, ',');
    assert Param(req, "consulTemplatePath") == sr.consulTemplatePath;
    assert Param(req, "skipCheck") == FormatBool(sr.skipCheck);
    if sr.servicePath != [] {
      SplitJoin(sr.servicePath, ',');
    }
    ParseFormatBool(sr.skipCheck);
  }

  // ---------------------------------------------------------------------------
  // Answers
  // ---------------------------------------------------------------------------

  /** The status table: 404 for an unknown path, 400 for a refused request,
      500 when the engine or the Remove capability fails, 200 otherwise. */
  lemma ServeStatus(s: Server, req: Request, caps: Capabilities, kv: map<string, string>)
    ensures var sv, a := ServeSpec(s, req, caps, kv), Route(req);
            && (StatusOf(sv.events) == 404 <==> a == NotFound)
            && (StatusOf(sv.events) == 400 <==> a == BadRequest)
            && (StatusOf(sv.events) == 500 <==>
                  || (a.Reconfiguring? && ExecuteSpec(NewReconfigure(s.base, a.intent), caps, kv).error.Some?)
                  || (a.Removing? && caps.removeFails))
            && (StatusOf(sv.events) == 200 <==> sv.outcome.error == None && !a.NotFound? && !a.BadRequest?)
  {
    match Route(req)
    case Reconfiguring(sr) =>
      ControlStatus(ExecuteSpec(NewReconfigure(s.base, sr), caps, kv).error.Some?, Echo(sr));
    case Removing(name) =>
      ControlStatus(caps.removeFails, RemovedEcho(name));
    case _ =>
  }

  /** A control answer carries 500 exactly when the work failed. */
  lemma ControlStatus(failed: bool, body: Response)
    ensures StatusOf([ContentType(JsonContentType)] + Reply(failed, body)) == if failed then 500 else 200
  {
    var events := [ContentType(JsonContentType)] + Reply(failed, body);
    assert events[1..] == Reply(failed, body);
  }

  /** Every control answer, and only a control answer, is JSON. */
  lemma ServeIsJson(s: Server, req: Request, caps: Capabilities, kv: map<string, string>)
    ensures ContentType(JsonContentType) in ServeSpec(s, req, caps, kv).events <==>
              req.path == ReconfigurePath || req.path == RemovePath
  {
    assert forall e :: ContentType(JsonContentType) != Status(e);
  }

  /** A body is written exactly on a successful control answer, last, and
      echoes the intent applied or the service removed. */
  lemma ServeBody(s: Server, req: Request, caps: Capabilities, kv: map<string, string>)
    ensures var sv, a := ServeSpec(s, req, caps, kv), Route(req);
            && (a.Reconfiguring? && sv.outcome.error == None ==> sv.events[|sv.events| - 1] == Body(Echo(a.intent)))
            && (a.Removing? && sv.outcome.error == None ==> sv.events[|sv.events| - 1] == Body(RemovedEcho(a.serviceName)))
            && ((exists i :: 0 <= i < |sv.events| && sv.events[i].Body?) <==>
                  (a.Reconfiguring? || a.Removing?) && sv.outcome.error == None)
  {
  }

  /** Requests other than an accepted reconfigure leave the key/value store
      as it was. */
  lemma ServeStoreUntouched(s: Server, req: Request, caps: Capabilities, kv: map<string, string>)
    requires !Route(req).Reconfiguring?
    ensures ServeSpec(s, req, caps, kv).outcome.kv == kv
    ensures Route(req).Removing? ==>
              ServeSpec(s, req, caps, kv).outcome.effects
              == [RemoveService(Route(req).serviceName, s.base.configsPath, s.base.templatesPath)]
    ensures !Route(req).Removing? ==> ServeSpec(s, req, caps, kv).outcome.effects == []
  {
  }

  /** A reconfigure request answered with 200 leaves the store holding the
      intent it described, so the fleet replay rebuilds that same intent. */
  lemma ServedIntentPersists(s: Server, req: Request, caps: Capabilities, kv: map<string, string>)
    requires Route(req).Reconfiguring?
    requires StatusOf(ServeSpec(s, req, caps, kv).events) == 200
    ensures var sr := Route(req).intent;
            Rebuild(ServeSpec(s, req, caps, kv).outcome.kv, sr.serviceName) == Some(sr)
  {
    var sr := Route(req).intent;
    RouteIntent(req);
    ServeStatus(s, req, caps, kv);
    assert ExecuteSpec(NewReconfigure(s.base, sr), caps, kv).error == None;
    ExecutePersistsIntent(NewReconfigure(s.base, sr), caps, kv);
  }

  // ---------------------------------------------------------------------------
  // Startup
  // ---------------------------------------------------------------------------

  /** The replay makes no Listen call. */
  lemma ReplayNeverListens(r: Reconfigure, address: string, caps: Capabilities, kv: map<string, string>)
    ensures forall e :: e in ReplaySpec(r, address, caps, kv).effects ==> !e.Listen?
  {
  }

  /** Startup succeeds exactly when the Run step, the replay at the
      configured key/value address and the listen all succeed; the server
      listens on ip:port only after both earlier steps succeeded, and never
      writes to the store. */
  lemma StartupOrder(s: Server, caps: Capabilities, kv: map<string, string>)
    ensures var o, replay := StartupSpec(s, caps, kv), ReplaySpec(NewReconfigure(s.base, Named("")), s.base.consulAddress, caps, kv);
            && (o.error == None <==> !caps.runFails && replay.error == None && !caps.listenFails)
            && (Listen(ListenAddress(s)) in o.effects <==> !caps.runFails && replay.error == None)
            && (forall a :: Listen(a) in o.effects ==> a == ListenAddress(s))
            && o.effects[0] == StartupRun
            && (!caps.runFails ==> o.effects[1..|replay.effects| + 1] == replay.effects)
            && o.kv == kv
  {
    ReplayNeverListens(NewReconfigure(s.base, Named("")), s.base.consulAddress, caps, kv);
  }
}
