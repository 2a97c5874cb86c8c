# Server-instance registry of mf-webserver

`WebServerModule` (in `lib/WebserverModule.js`) starts one koa web server per
entry of its `instances` configuration and records each one under its name
in the `_instances` dictionary. Other modules then add routes to one named
instance through `registerRoute`, or fetch its router with `getRouter`.
This project models that registry:

- configuration defaulting (`_getConfig`, the port defaults to 3000);
- building the registry (`init` and `_initWebServer`);
- lookup-or-fail (`getRouter`, which throws `"Router <name> not found"`);
- route registration on one instance (`registerRoute`).

Each instance is abstracted as its port and its router. A router is the
ordered list of `(method, path, handler)` routes registered on it.

`webserver_module.dfy` holds module `WebServerModule`:

- datatypes for configuration values, instances, routes and the not-found error;
- specification functions over the registry (`GetConfig`, `Started`,
  `GetRouter`, `AddRoute`, and `RegisterAll` for a sequence of
  `registerRoute` calls);
- the lemmas about them;
- class `WebServer`, whose `instances` field is `_instances`. Its methods
  `Init`, `InitWebServer` and `RegisterRoute` update that field in place and
  are proved against the functions.

`inherited_names.dfy` (module `InheritedNames`) models the lookup exactly as
written, for the finding below.

Configuration values are a small JavaScript value type: `undefined`, `null`,
booleans, integer numbers and strings. One instance's settings are either
absent (`null`/`undefined`; `Object.assign` skips these) or a record of keys.
The `instances` map itself is a parameter of `Init`. It stands for what
`this.config.get('instances', {})` returns, an empty map when nothing is
configured. Handlers are opaque identities.

## Model

| member | source | states |
|---|---|---|
| `WebServerModule.GetConfig` | lib/WebserverModule.js:54-58 | The merged settings always have a `port` key. It is 3000 when the record has no `port` or the settings are absent. A `port` the record supplies wins, whatever its value. Every other key of the record is kept as it is, except `__proto__`, which `Object.assign` does not copy. No key is added besides `port`. |
| `WebServerModule.StartInstance` | lib/WebserverModule.js:21-32 | The instance started for one entry has a new, empty router. Its port is the `port` the settings record supplies, or 3000 when the settings are absent or have no `port`. |
| `WebServerModule.Started` | lib/WebserverModule.js:21-35 | After starting the configured entries, the names are the old names plus the configured ones. Each configured name holds the instance its settings start. Names that are not configured keep their old instance. |
| `WebServerModule.StartedOneMore` | lib/WebserverModule.js:14 | Starting one more entry adds (or overwrites) exactly that name. This is the step the `init` loop takes per entry. |
| `WebServerModule.InitRegistersExactlyTheConfiguredInstances` | lib/WebserverModule.js:11-35 | From a new module, the instance names after `init` are exactly the configured names. Each instance has the port `_getConfig` computes for its settings and an empty router. |
| `WebServerModule.Message` | lib/WebserverModule.js:68 | The error text is `"Router "`, then the instance name, then `" not found"`. The name can be read back from the text. |
| `WebServerModule.GetRouter` | lib/WebserverModule.js:65-71 | The lookup succeeds exactly when the name is a registered instance, and then yields that instance's router. Otherwise it fails with the not-found error for that name, with no fallback router. The name defaults to `"default"`. |
| `WebServerModule.AddRoute` | lib/WebserverModule.js:79-82 | Registration succeeds exactly when the instance is registered. Otherwise it fails with that instance's not-found error, whatever the method string; the method is constrained only when the instance exists. On success the set of names is unchanged. The named instance keeps its port, and its router gains exactly one route `(method, path, handler)` at the end, with the method string as given. Every other instance is unchanged. |
| `WebServerModule.LookupAfterRegistration` | lib/WebserverModule.js:79-82 | After a registration, `getRouter` on that instance yields the old router plus the new route. On any other name it yields what it yielded before. |
| `WebServerModule.RegistrationsOnDistinctInstancesCommute` | lib/WebserverModule.js:79-82 | Two registrations on different registered instances give the same result in either order. |
| `WebServerModule.RegisterAll` | lib/WebserverModule.js:79-82 | In a series of calls, each call runs only if every earlier one returned; the first throw stops the rest. The set of instance names never changes. The series completes without a throw exactly when every call names a registered instance. A thrown error names an instance that is not registered. Method strings are constrained only for calls before the first unknown instance. |
| `WebServerModule.RegisterAllRouterOf` | lib/WebserverModule.js:79-82 | After a series of calls that all name registered instances, one instance keeps its port, and its router is its old router followed by the routes aimed at it, in call order. |
| `WebServerModule.RegisterAllAppendsInOrder` | lib/WebserverModule.js:79-82 | For any sequence of calls that all name registered instances: none throws, names and ports stay as they were, and each router gains exactly the routes aimed at it, in call order. |
| `WebServerModule.RegisterAllStopsAtFirstUnknown` | lib/WebserverModule.js:79-82 | The first call naming an unknown instance throws that instance's not-found error, whatever its method string, and none of the later calls take effect. The registry is left as the earlier calls made it. |
| `WebServerModule.WebServer.constructor` | lib/WebserverModule.js:9 | A new module holds no instances. |
| `WebServerModule.WebServer.InitWebServer` | lib/WebserverModule.js:21-35 | For a port `listen` accepts, starting one entry records under its name the instance started from its settings. It leaves any other entry alone. |
| `WebServerModule.WebServer.Init` | lib/WebserverModule.js:11-15 | When every configured port is one `listen` accepts, walking every configured entry leaves the registry that `Started` describes. |
| `WebServerModule.WebServer.RegisterRoute` | lib/WebserverModule.js:79-82 | The call succeeds exactly when the instance was registered. On failure the error is the not-found error, whatever the method string, and the registry is unchanged. On success the registry is what `AddRoute` yields. The method defaults to `"get"` and the instance to `"default"`. |
| `InheritedNames.GetRouterAsWritten` | lib/WebserverModule.js:65-71 | As written, a registered name yields its router. An unregistered name inherited from `Object.prototype` yields `undefined`. Only other names throw the not-found error. |
| `InheritedNames.InheritedNameIsNotRejected` | lib/WebserverModule.js:65-71 | As written, `getRouter("toString")` on a registry without that name returns `undefined` and does not throw. The intended lookup throws the not-found error. |
| `InheritedNames.AsWrittenDiffersOnlyOnInheritedNames` | lib/WebserverModule.js:65-71 | The as-written and the intended lookup disagree exactly on names that are not registered but are inherited from `Object.prototype`. |

## Left out

- Everything `_initWebServer` does with koa: creating the application, `app.use(koaBody())`, `app.use(router.routes())` and `app.listen(port)`. These are a foreign library and a network listener. An asynchronous bind failure (such as a port already in use, reported as an `error` event) is not modelled either.
- The source stores the koa application in `_instances` and hangs the router on it. It does not store the port. The model keeps the port in the instance record so that what `listen` receives is stated.
- `initMiddleWares` and its `renderTemplate` callback. They wrap `ejs.renderFile` and `path.resolve`, both foreign, and the middleware is not installed (its `app.use` is commented out).
- `initModule`: its body is empty.
- The `console.log` and `this.log` calls: logging only.
- The `Module` base class and `this.config.get` come from `mf-lib`, which is not part of this model. The `instances` configuration is an argument.
- `WebServerModule.WebServer.RegisterRoute`, `WebServerModule.AddRoute` and `WebServerModule.RegisterAll`: when the instance exists, they require the method to be in `RouterVerbs`. That set is the lower-cased Node HTTP method names (`get`, `post`, `trace`, `copy`, `search`, `purge`, `lock`, `connect`, ...), plus `del` and `all`; each of these registers a route for that method. Node versions that know other HTTP methods give koa-router more verbs, and those are not in the set. koa-router's other methods, which also accept `(path, fnc)`, are not modelled either: `use`, `param`, `redirect`, `prefix`, and even `toString`. A string that names no router property at all, such as upper-case `"GET"`, fails with a `TypeError`; that failure is not modelled. When the instance is unknown, any method string is allowed: the not-found error is thrown before `router[method]` is read.
- `WebServerModule.WebServer.Init` and `WebServerModule.WebServer.InitWebServer`: they require every configured port to be one `listen` accepts (`ListenAccepts`: `undefined`, `null`, or an integer 0..65535). `app.listen(port)` runs before the entry is recorded. For a port Node rejects (a boolean, an empty string, a number out of range), it throws synchronously. That entry is then left out of `_instances`, and the remaining entries of the walk are never started. That throw and the partial registry it leaves are not modelled. Port strings are not modelled either: Node takes a numeric string as a port and any other string as a pipe path.
- koa-router's own route matching and dispatch. A router is only the ordered list of what was registered on it.
- `getRouter` hands out the router object itself, so a caller holding it sees later registrations. The model represents routers as values in the registry. It does not model that aliasing.
- `WebServerModule.GetConfig`: a settings record whose own `__proto__` key is `null` also leaves the merged settings without a prototype. Prototypes are not modelled; the model only drops that key, as it does for a primitive value, which the setter ignores. The port is unaffected either way.
- An instance named `__proto__` would replace the prototype of `_instances` in JavaScript. The model treats it as an ordinary key.
- Settings that are JavaScript primitives other than `null`/`undefined`, nested objects, and non-integer numbers.
- `init` and `initModule` are declared `async` but never await. They are modelled as sequential code.

## Findings

| source | as written | input that shows it | evidently intended | confidence | as-written member | corrected member |
|---|---|---|---|---|---|---|
| lib/WebserverModule.js:66 | `getRouter` tests `this._instances[instance]` for truthiness on a plain object literal. Names inherited from `Object.prototype` pass that test. | `getRouter("toString")`, or `registerRoute(p, f, "get", "constructor")`, with no instance of that name. The first returns `undefined`. The second fails with a `TypeError` instead of "Router constructor not found". | Only configured instances are found. Every other name throws the not-found error. | not executed; high | `InheritedNames.GetRouterAsWritten` (shown by `InheritedNames.InheritedNameIsNotRejected`) | `WebServerModule.GetRouter` (shown by `InheritedNames.AsWrittenDiffersOnlyOnInheritedNames`) |
