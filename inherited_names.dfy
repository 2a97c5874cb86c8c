/**
  The instance lookup exactly as written: `_instances` is a plain object
  literal, and the lookup tests `this._instances[instance]` for truthiness.
  A name that is not an own key but that every object inherits from
  `Object.prototype` ("toString", "constructor", ...) reads as a function,
  which is truthy, so no error is thrown and `.router` of that function,
  `undefined`, is returned. `WebServerModule.GetRouter` is the intended
  own-key lookup that the rest of the model uses.
 */
module InheritedNames {
  import opened WebServerModule

  /** The properties a plain object inherits from `Object.prototype`. */
  const ObjectPrototypeMembers: set<string> :=
    { "constructor", "hasOwnProperty", "isPrototypeOf", "propertyIsEnumerable",
      "toLocaleString", "toString", "valueOf", "__proto__",
      "__defineGetter__", "__defineSetter__", "__lookupGetter__", "__lookupSetter__" }

  /** What the lookup hands back in JavaScript: a thrown error or a returned value (None is `undefined`). */
  datatype JsLookup = Threw(error: Error) | Returned(router: Option<Router>)

  /**
    `getRouter` as written: an own entry, else an inherited member, else the
    not-found error. It returns `undefined` exactly for the inherited names
    that are not configured, and it throws only for names that are neither.
   */
  function GetRouterAsWritten(reg: Registry, name: string := "default"): (r: JsLookup)
    ensures name in reg ==> r == Returned(Some(reg[name].router))
    ensures r == Returned(None) <==> name !in reg && name in ObjectPrototypeMembers
    ensures r.Threw? <==> name !in reg && name !in ObjectPrototypeMembers
    ensures r.Threw? ==> r.error == RouterNotFound(name)
  {
    if name in reg then Returned(Some(reg[name].router))
    else if name in ObjectPrototypeMembers then Returned(None)
    else Threw(RouterNotFound(name))
  }

  /** The as-written lookup and the intended one in JavaScript terms. */
  function AsJs(r: Result<Router>): JsLookup
  {
    match r
    case Ok(router) => Returned(Some(router))
    case Err(e) => Threw(e)
  }

  /**
    With no instance configured, `getRouter("toString")` returns `undefined`
    instead of throwing "Router toString not found".
   */
  lemma InheritedNameIsNotRejected()
    ensures GetRouterAsWritten(map[], "toString") == Returned(None)
    ensures AsJs(GetRouter(map[], "toString")) == Threw(RouterNotFound("toString"))
    ensures GetRouterAsWritten(map[], "toString") != AsJs(GetRouter(map[], "toString"))
  {
  }

  /** The two lookups differ exactly on inherited names that are not configured instances. */
  lemma AsWrittenDiffersOnlyOnInheritedNames(reg: Registry, name: string)
    ensures GetRouterAsWritten(reg, name) != AsJs(GetRouter(reg, name))
            <==> name !in reg && name in ObjectPrototypeMembers
  {
  }
}
