/**
  The server-instance registry of the web server module: per-instance
  configuration defaulting, the table of named instances built at start-up,
  the lookup-or-fail of an instance's router, and route registration on one
  named instance.

  The koa application, its body-parsing middleware and its network listener
  are abstracted away: an instance is the port it listens on together with
  its router, and a router is the ordered list of routes registered on it.
 */
module WebServerModule {

  // ---------------------------------------------------------------------
  // Configuration values
  // ---------------------------------------------------------------------

  /** The JavaScript values a configuration entry can hold (numbers are integers here). */
  datatype Value = Undefined | Null | Bool(b: bool) | Num(n: int) | Str(s: string)

  /** The settings of one instance: absent (null or undefined) or a record of keys. */
  datatype Settings = Absent | Record(fields: map<string, Value>)

  /** The port an instance listens on when its settings do not name one. */
  const DefaultPort: int := 3000

  /**
    The key that `Object.assign` cannot copy onto a plain object: assigning
    it runs the inherited `__proto__` setter, which ignores a primitive and
    changes the prototype for `null`, and in neither case creates a key.
   */
  const ProtoKey: string := "__proto__"

  /**
    `_getConfig`: the instance's own settings merged over `{port: 3000}`.
    An absent settings value contributes no key, as `Object.assign` skips
    null and undefined sources; a `port` key that the record holds wins over
    the default whatever its value (even `undefined`); a `__proto__` key of
    the record is not copied.
   */
  function GetConfig(cfg: Settings): (r: map<string, Value>)
    ensures "port" in r
    ensures ProtoKey !in r
    ensures cfg.Absent? ==> r == map["port" := Num(DefaultPort)]
    ensures cfg.Record? ==> r.Keys == (cfg.fields.Keys - {ProtoKey}) + {"port"}
    ensures cfg.Record? ==> forall k :: k in cfg.fields && k != ProtoKey ==> r[k] == cfg.fields[k]
    ensures cfg.Record? && "port" !in cfg.fields ==> r["port"] == Num(DefaultPort)
  {
    match cfg
    case Absent => map["port" := Num(DefaultPort)]
    case Record(fields) => map["port" := Num(DefaultPort)] + (fields - {ProtoKey})
  }

  // ---------------------------------------------------------------------
  // Routers, instances and the registry
  // ---------------------------------------------------------------------

  /** The identity of a handler function passed in by a collaborator. */
  datatype Handler = Handler(id: nat)

  /** One registration on a koa router: the router method name used, the path and the handler. */
  datatype Route = Route(verb: string, path: string, handler: Handler)

  /** A router, as the ordered list of the routes registered on it. */
  type Router = seq<Route>

  /**
    The koa-router methods that register a route for one HTTP method: the
    lower-cased names of Node's HTTP methods, `del` (an alias of `delete`)
    and `all` (every method). Other router methods are outside this model.
   */
  const RouterVerbs: set<string> :=
    { "acl", "bind", "checkout", "connect", "copy", "delete", "get", "head", "link",
      "lock", "m-search", "merge", "mkactivity", "mkcalendar", "mkcol", "move",
      "notify", "options", "patch", "post", "propfind", "proppatch", "purge", "put",
      "rebind", "report", "search", "source", "subscribe", "trace", "unbind",
      "unlink", "unlock", "unsubscribe", "del", "all" }

  /** One running server instance: the port it was started on and its router. */
  datatype Instance = Instance(port: Value, router: Router)

  /** The `_instances` dictionary: instance name to instance. */
  type Registry = map<string, Instance>

  /** The largest TCP port number. */
  const MaxPort: int := 65535

  /**
    The port values `listen` takes without throwing: `undefined` or `null`
    (any free port) and an integer port number. Node throws synchronously
    on the others, which this model leaves out.
   */
  predicate ListenAccepts(port: Value)
  {
    port.Undefined? || port.Null? || (port.Num? && 0 <= port.n <= MaxPort)
  }

  /** Every configured instance has a port `listen` accepts. */
  predicate PortsAccepted(config: map<string, Settings>)
  {
    forall n :: n in config ==> ListenAccepts(GetConfig(config[n])["port"])
  }

  /**
    The instance `_initWebServer` starts for one settings entry: it listens
    on the port the settings name, or on 3000, and its router is new and empty.
   */
  function StartInstance(cfg: Settings): (r: Instance)
    ensures r.router == []
    ensures cfg.Record? && "port" in cfg.fields ==> r.port == cfg.fields["port"]
    ensures cfg.Absent? || "port" !in cfg.fields ==> r.port == Num(DefaultPort)
  {
    Instance(GetConfig(cfg)["port"], [])
  }

  /**
    The registry after starting one instance per entry of `config` on top of
    `reg`: every configured name gets a fresh instance, other names keep theirs.
   */
  function Started(reg: Registry, config: map<string, Settings>): (r: Registry)
    ensures r.Keys == reg.Keys + config.Keys
    ensures forall n :: n in config ==> r[n] == StartInstance(config[n])
    ensures forall n :: n in reg && n !in config ==> r[n] == reg[n]
  {
    reg + map n | n in config :: StartInstance(config[n])
  }

  /**
    Starting one more pending entry extends the started registry by exactly
    that entry: the step `init` takes per configured name.
   */
  lemma StartedOneMore(reg: Registry, config: map<string, Settings>, pending: set<string>, name: string)
    requires name in pending && pending <= config.Keys
    ensures Started(reg, config - (pending - {name}))
            == Started(reg, config - pending)[name := StartInstance(config[name])]
  {
    assert config - (pending - {name}) == (config - pending)[name := config[name]];
  }

  /**
    Starting from the empty registry (as `init` does on a new module), the
    instance names are exactly the configured names, each instance carries
    the port `_getConfig` computes for its settings and an empty router.
   */
  lemma InitRegistersExactlyTheConfiguredInstances(config: map<string, Settings>)
    ensures Started(map[], config).Keys == config.Keys
    ensures forall n :: n in config ==>
              && Started(map[], config)[n].port == GetConfig(config[n])["port"]
              && Started(map[], config)[n].router == []
  {
  }

  // ---------------------------------------------------------------------
  // Lookup and registration
  // ---------------------------------------------------------------------

  datatype Option<T> = None | Some(value: T)

  /** The error `getRouter` throws for an unknown instance. */
  datatype Error = RouterNotFound(name: string)

  datatype Result<T> = Ok(value: T) | Err(error: Error)

  datatype Outcome = Pass | Fail(error: Error)

  /** The error's message text: the instance name framed by "Router " and " not found". */
  function Message(e: Error): (r: string)
    ensures |r| == |e.name| + 17
    ensures r[..7] == "Router " && r[|r| - 10..] == " not found"
    ensures r[7..|r| - 10] == e.name
  {
    "Router " + e.name + " not found"
  }

  /**
    `getRouter`: the named instance's router, or the not-found error; the
    name defaults to "default". There is no fallback router.
   */
  function GetRouter(reg: Registry, name: string := "default"): (r: Result<Router>)
    ensures r.Ok? <==> name in reg
    ensures r.Ok? ==> r.value == reg[name].router
    ensures r.Err? ==> r.error == RouterNotFound(name)
  {
    if name in reg then Ok(reg[name].router) else Err(RouterNotFound(name))
  }

  /**
    What `registerRoute` does to the registry: look the instance up first
    (failing with the not-found error, whatever the method string), then
    append exactly one route, with the verb as given, to that instance's
    router only.
   */
  function AddRoute(reg: Registry, path: string, fnc: Handler, verb: string, name: string): (r: Result<Registry>)
    requires name in reg ==> verb in RouterVerbs
    ensures r.Ok? <==> name in reg
    ensures r.Err? ==> r.error == RouterNotFound(name)
    ensures r.Ok? ==> r.value.Keys == reg.Keys
    ensures r.Ok? ==> r.value[name] == Instance(reg[name].port, reg[name].router + [Route(verb, path, fnc)])
    ensures r.Ok? ==> forall m :: m in reg && m != name ==> r.value[m] == reg[m]
  {
    match GetRouter(reg, name)
    case Err(e) => Err(e)
    case Ok(router) => Ok(reg[name := reg[name].(router := router + [Route(verb, path, fnc)])])
  }

  /** After a registration the named instance's router ends with the new route. */
  lemma LookupAfterRegistration(reg: Registry, path: string, fnc: Handler, verb: string, name: string, other: string)
    requires name in reg && verb in RouterVerbs
    ensures GetRouter(AddRoute(reg, path, fnc, verb, name).value, name)
            == Ok(GetRouter(reg, name).value + [Route(verb, path, fnc)])
    ensures other != name ==> GetRouter(AddRoute(reg, path, fnc, verb, name).value, other) == GetRouter(reg, other)
  {
  }

  // ---------------------------------------------------------------------
  // A sequence of registrations
  // ---------------------------------------------------------------------

  /** The arguments of one `registerRoute(path, fnc, method, instance)` call. */
  datatype Call = Call(path: string, handler: Handler, verb: string, instance: string)

  /**
    Every call that runs, that is every call before the first one naming an
    instance outside `names`, uses a router verb. Calls from the first
    unknown instance on are not constrained: they never reach `router[method]`.
   */
  predicate VerbsValidUntilUnknown(names: set<string>, calls: seq<Call>)
    decreases |calls|
  {
    || calls == []
    || calls[0].instance !in names
    || (calls[0].verb in RouterVerbs && VerbsValidUntilUnknown(names, calls[1..]))
  }

  predicate AllTargetsRegistered(reg: Registry, calls: seq<Call>)
  {
    forall i :: 0 <= i < |calls| ==> calls[i].instance in reg
  }

  /**
    Calls made one after the other: each changes the registry in place, and
    the first one that throws stops the rest, leaving the work of the earlier
    ones done. No call changes the instance names; no call throws exactly
    when every call names a registered instance, and a thrown error names an
    unknown instance.
   */
  function RegisterAll(reg: Registry, calls: seq<Call>): (r: (Registry, Option<Error>))
    requires VerbsValidUntilUnknown(reg.Keys, calls)
    ensures r.0.Keys == reg.Keys
    ensures r.1.None? <==> AllTargetsRegistered(reg, calls)
    ensures r.1.Some? ==> r.1.value.name !in reg
    decreases |calls|
  {
    if calls == [] then (reg, None)
    else
      var c := calls[0];
      match AddRoute(reg, c.path, c.handler, c.verb, c.instance)
      case Err(e) => (reg, Some(e))
      case Ok(next) =>
        assert forall i :: 0 <= i < |calls[1..]| ==> calls[1..][i] == calls[i + 1];
        RegisterAll(next, calls[1..])
  }

  /** Two registrations on different registered instances give the same result in either order. */
  lemma RegistrationsOnDistinctInstancesCommute(reg: Registry, a: Call, b: Call)
    requires a.instance in reg && a.verb in RouterVerbs
    requires b.instance in reg && b.verb in RouterVerbs
    requires a.instance != b.instance
    ensures VerbsValidUntilUnknown(reg.Keys, [a, b]) && VerbsValidUntilUnknown(reg.Keys, [b, a])
    ensures RegisterAll(reg, [a, b]) == RegisterAll(reg, [b, a])
  {
    assert [a, b][1..] == [b] && [b, a][1..] == [a] && [a][1..] == [] && [b][1..] == [];
    assert VerbsValidUntilUnknown(reg.Keys, [b]) && VerbsValidUntilUnknown(reg.Keys, [a]);
    var ra := AddRoute(reg, a.path, a.handler, a.verb, a.instance).value;
    var rb := AddRoute(reg, b.path, b.handler, b.verb, b.instance).value;
    var ab := AddRoute(ra, b.path, b.handler, b.verb, b.instance).value;
    var ba := AddRoute(rb, a.path, a.handler, a.verb, a.instance).value;
    assert RegisterAll(reg, [a, b]) == RegisterAll(ra, [b]) == (ab, None);
    assert RegisterAll(reg, [b, a]) == RegisterAll(rb, [a]) == (ba, None);
    assert ab == ba;
  }

  /** The routes, in call order, that `calls` register on instance `name`. */
  function RoutesFor(calls: seq<Call>, name: string): seq<Route>
    decreases |calls|
  {
    if calls == [] then []
    else
      (if calls[0].instance == name then [Route(calls[0].verb, calls[0].path, calls[0].handler)] else [])
      + RoutesFor(calls[1..], name)
  }

  /** Calls on registered instances give instance `n` exactly the routes aimed at it, in order. */
  lemma {:induction false} RegisterAllRouterOf(reg: Registry, calls: seq<Call>, n: string)
    requires VerbsValidUntilUnknown(reg.Keys, calls)
    requires AllTargetsRegistered(reg, calls)
    requires n in reg
    ensures n in RegisterAll(reg, calls).0
    ensures RegisterAll(reg, calls).0[n] == Instance(reg[n].port, reg[n].router + RoutesFor(calls, n))
  {
    if calls == [] {
      assert reg[n].router + RoutesFor(calls, n) == reg[n].router;
    } else {
      var c, rest := calls[0], calls[1..];
      var next := AddRoute(reg, c.path, c.handler, c.verb, c.instance).value;
      assert forall i :: 0 <= i < |rest| ==> rest[i] == calls[i + 1];
      RegisterAllRouterOf(next, rest, n);
      var mine := if c.instance == n then [Route(c.verb, c.path, c.handler)] else [];
      assert next[n].router == reg[n].router + mine;
      assert RoutesFor(calls, n) == mine + RoutesFor(rest, n);
      assert (reg[n].router + mine) + RoutesFor(rest, n) == reg[n].router + RoutesFor(calls, n);
    }
  }

  /**
    When every call names a registered instance, none throws, the instance
    names and ports stay as they were, and every router gains exactly the
    routes aimed at it, in the order they were registered.
   */
  lemma RegisterAllAppendsInOrder(reg: Registry, calls: seq<Call>)
    requires VerbsValidUntilUnknown(reg.Keys, calls)
    requires AllTargetsRegistered(reg, calls)
    ensures RegisterAll(reg, calls).1 == None
    ensures RegisterAll(reg, calls).0.Keys == reg.Keys
    ensures forall n :: n in reg ==>
              && RegisterAll(reg, calls).0[n].port == reg[n].port
              && RegisterAll(reg, calls).0[n].router == reg[n].router + RoutesFor(calls, n)
  {
    forall n | n in reg
      ensures RegisterAll(reg, calls).0[n] == Instance(reg[n].port, reg[n].router + RoutesFor(calls, n))
    {
      RegisterAllRouterOf(reg, calls, n);
    }
  }

  /**
    Fail-fast: the first call that names an unknown instance throws that
    instance's not-found error, whatever its method string, and the registry
    is what the calls before it made of it; nothing after it runs.
   */
  lemma {:induction false} RegisterAllStopsAtFirstUnknown(reg: Registry, calls: seq<Call>, k: nat)
    requires VerbsValidUntilUnknown(reg.Keys, calls)
    requires k < |calls|
    requires calls[k].instance !in reg
    requires AllTargetsRegistered(reg, calls[..k])
    ensures VerbsValidUntilUnknown(reg.Keys, calls[..k])
    ensures RegisterAll(reg, calls) == (RegisterAll(reg, calls[..k]).0, Some(RouterNotFound(calls[k].instance)))
  {
    if k == 0 {
      assert calls[..k] == [];
    } else {
      var c, rest := calls[0], calls[1..];
      var pre := calls[..k];
      assert pre[0] == c && c.instance in reg;
      var next := AddRoute(reg, c.path, c.handler, c.verb, c.instance).value;
      assert rest[k - 1] == calls[k];
      assert rest[..k - 1] == pre[1..];
      assert AllTargetsRegistered(next, rest[..k - 1]) by {
        assert forall i :: 0 <= i < |pre[1..]| ==> pre[1..][i] == pre[i + 1];
      }
      RegisterAllStopsAtFirstUnknown(next, rest, k - 1);
      assert VerbsValidUntilUnknown(reg.Keys, pre);
      assert RegisterAll(reg, calls) == RegisterAll(next, rest);
      assert RegisterAll(reg, pre) == RegisterAll(next, pre[1..]);
    }
  }

  // ---------------------------------------------------------------------
  // The module object
  // ---------------------------------------------------------------------

  /** The web server module: the `_instances` dictionary and the operations on it. */
  class WebServer {
    var instances: Registry

    /** A new module holds no instances. */
    constructor ()
      ensures instances == map[]
    {
      instances := map[];
    }

    /** `_initWebServer([name, cfg])`: start one instance and record it under its name. */
    method InitWebServer(name: string, cfg: Settings)
      requires ListenAccepts(GetConfig(cfg)["port"])
      modifies this
      ensures instances == old(instances)[name := StartInstance(cfg)]
    {
      var port := GetConfig(cfg)["port"];
      var router: Router := [];
      instances := instances[name := Instance(port, router)];
    }

    /**
      `init`: start one instance per entry of the `instances` configuration
      map (an empty map when the configuration has none).
     */
    method Init(config: map<string, Settings>)
      requires PortsAccepted(config)
      modifies this
      ensures instances == Started(old(instances), config)
    {
      var pending := config.Keys;
      while pending != {}
        invariant pending <= config.Keys
        invariant instances == Started(old(instances), config - pending)
        decreases pending
      {
        var name :| name in pending;
        StartedOneMore(old(instances), config, pending, name);
        InitWebServer(name, config[name]);
        pending := pending - {name};
      }
      assert config - pending == config;
    }

    /**
      `registerRoute(path, fnc, method = "get", instance = "default")`: the
      lookup fails first when the instance is unknown and nothing changes;
      otherwise exactly one route is appended to that instance's router.
     */
    method RegisterRoute(path: string, fnc: Handler, verb: string := "get", instance: string := "default")
      returns (outcome: Outcome)
      requires instance in instances ==> verb in RouterVerbs
      modifies this
      ensures outcome.Pass? <==> instance in old(instances)
      ensures outcome.Fail? ==> outcome.error == RouterNotFound(instance) && instances == old(instances)
      ensures outcome.Pass? ==> instances == AddRoute(old(instances), path, fnc, verb, instance).value
    {
      var lookup := GetRouter(instances, instance);
      if lookup.Err? {
        return Fail(lookup.error);
      }
      var router := lookup.value;
      instances := instances[instance := instances[instance].(router := router + [Route(verb, path, fnc)])];
      outcome := Pass;
    }
  }
}
