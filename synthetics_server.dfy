/** Start-up of the synthetics server: every REST route is handed to the
    host router's registration function for its HTTP method, then the
    status-check and TLS-check rule types are registered with the alerting
    plugin.

    The router and the alerting registry are one `Host` object whose only
    state is the log of registration calls it has received, in order. The
    route wrappers (authentication, then the synthetics wrapper) are the
    function `wrap`; validation schemas, route options and handlers are the
    opaque types `V`, `O` and `H`. */
module SyntheticsServer {
  import opened Wrappers

  /** The router's four registration functions. */
  datatype Verb = Get | Post | Put | Delete

  /** A route after wrapping, as destructured by the start-up loop. */
  datatype Route<V, O, H> = Route(httpMethod: string, path: string, validate: V, options: O, handler: H)

  /** What the router receives as its first argument. */
  datatype RouteDefinition<V, O> = RouteDefinition(path: string, validate: V, options: O)

  /** The two rule types built by the rule factories. */
  datatype Rule = StatusCheckRule | TlsCheckRule

  /** One call received by the host. */
  datatype HostCall<V, O, H> =
    | RouterCall(verb: Verb, definition: RouteDefinition<V, O>, handler: H)
    | RegisterType(rule: Rule)

  /** How start-up ends: normally, or with a thrown error message. */
  datatype Outcome = Done | Thrown(message: string)

  function VerbName(verb: Verb): string {
    match verb
    case Get => "GET"
    case Post => "POST"
    case Put => "PUT"
    case Delete => "DELETE"
  }

  /** The `switch` on the method string: the router function it selects, if
      any. */
  function VerbOf(httpMethod: string): (verb: Option<Verb>)
    ensures verb.Some? <==> httpMethod in {"GET", "POST", "PUT", "DELETE"}
    ensures verb.Some? ==> VerbName(verb.value) == httpMethod
  {
    if httpMethod == "GET" then Some(Get)
    else if httpMethod == "POST" then Some(Post)
    else if httpMethod == "PUT" then Some(Put)
    else if httpMethod == "DELETE" then Some(Delete)
    else None
  }

  predicate Dispatchable<V, O, H>(route: Route<V, O, H>) {
    VerbOf(route.httpMethod).Some?
  }

  function UnknownMethodMessage(httpMethod: string): string {
    "Handler for method " + httpMethod + " is not defined"
  }

  /** The single router call a dispatchable route causes: the definition
      holds the path, validation and options, and the handler goes beside
      it. */
  function DispatchCall<V, O, H>(route: Route<V, O, H>): HostCall<V, O, H>
    requires Dispatchable(route)
  {
    RouterCall(VerbOf(route.httpMethod).value, RouteDefinition(route.path, route.validate, route.options), route.handler)
  }

  /** The index of the first route the switch rejects, or the number of
      routes when it rejects none. */
  function FirstUnknown<V, O, H>(routes: seq<Route<V, O, H>>): (k: nat)
    ensures k <= |routes|
    ensures forall i :: 0 <= i < k ==> Dispatchable(routes[i])
    ensures k < |routes| ==> !Dispatchable(routes[k])
    decreases |routes|
  {
    if routes == [] || !Dispatchable(routes[0]) then 0
    else 1 + FirstUnknown(routes[1..])
  }

  /** The router calls for routes that all dispatch, in list order. */
  function RouterLog<V, O, H>(routes: seq<Route<V, O, H>>): (log: seq<HostCall<V, O, H>>)
    requires forall i :: 0 <= i < |routes| ==> Dispatchable(routes[i])
  {
    seq(|routes|, i requires 0 <= i < |routes| => DispatchCall(routes[i]))
  }

  /** Every call start-up makes, given the wrapped routes: the router calls
      for the routes before the first unknown method, then, only if there is
      none, the status rule and the TLS rule. */
  function StartupLog<V, O, H>(routes: seq<Route<V, O, H>>): seq<HostCall<V, O, H>> {
    var k := FirstUnknown(routes);
    RouterLog(routes[..k]) + if k == |routes| then [RegisterType(StatusCheckRule), RegisterType(TlsCheckRule)] else []
  }

  /** How start-up ends, given the wrapped routes. */
  function StartupOutcome<V, O, H>(routes: seq<Route<V, O, H>>): Outcome {
    var k := FirstUnknown(routes);
    if k == |routes| then Done else Thrown(UnknownMethodMessage(routes[k].httpMethod))
  }

  /** The route list after wrapping each route. */
  function Wrapped<R, V, O, H>(routes: seq<R>, wrap: R -> Route<V, O, H>): seq<Route<V, O, H>> {
    seq(|routes|, i requires 0 <= i < |routes| => wrap(routes[i]))
  }

  /** The host router and alerting registry, seen through the calls they
      receive. */
  class Host<V, O, H> {
    var calls: seq<HostCall<V, O, H>>

    constructor ()
      ensures calls == []
    {
      calls := [];
    }

    /** `server.router.get` */
    method RouterGet(definition: RouteDefinition<V, O>, handler: H)
      modifies this
      ensures calls == old(calls) + [RouterCall(Get, definition, handler)]
    {
      calls := calls + [RouterCall(Get, definition, handler)];
    }

    /** `server.router.post` */
    method RouterPost(definition: RouteDefinition<V, O>, handler: H)
      modifies this
      ensures calls == old(calls) + [RouterCall(Post, definition, handler)]
    {
      calls := calls + [RouterCall(Post, definition, handler)];
    }

    /** `server.router.put` */
    method RouterPut(definition: RouteDefinition<V, O>, handler: H)
      modifies this
      ensures calls == old(calls) + [RouterCall(Put, definition, handler)]
    {
      calls := calls + [RouterCall(Put, definition, handler)];
    }

    /** `server.router.delete` */
    method RouterDelete(definition: RouteDefinition<V, O>, handler: H)
      modifies this
      ensures calls == old(calls) + [RouterCall(Delete, definition, handler)]
    {
      calls := calls + [RouterCall(Delete, definition, handler)];
    }

    /** `plugins.alerting.registerType` */
    method RegisterRuleType(rule: Rule)
      modifies this
      ensures calls == old(calls) + [RegisterType(rule)]
    {
      calls := calls + [RegisterType(rule)];
    }
  }

  /** `initSyntheticsServer`: registers every route by its method, stopping
      with an error at the first unknown method (routes already registered
      stay registered), and then registers the status rule and the TLS
      rule. */
  method InitSyntheticsServer<R, V, O, H>(host: Host<V, O, H>, routes: seq<R>, wrap: R -> Route<V, O, H>)
    returns (outcome: Outcome)
    modifies host
    ensures host.calls == old(host.calls) + StartupLog(Wrapped(routes, wrap))
    ensures outcome == StartupOutcome(Wrapped(routes, wrap))
  {
    ghost var wrapped := Wrapped(routes, wrap);
    var i := 0;
    while i < |routes|
      invariant 0 <= i <= |routes|
      invariant forall j :: 0 <= j < i ==> Dispatchable(wrapped[j])
      invariant host.calls == old(host.calls) + RouterLog(wrapped[..i])
    {
      var route := wrap(routes[i]);
      assert wrapped[i] == route;
      var definition := RouteDefinition(route.path, route.validate, route.options);
      if route.httpMethod == "GET" {
        host.RouterGet(definition, route.handler);
      } else if route.httpMethod == "POST" {
        host.RouterPost(definition, route.handler);
      } else if route.httpMethod == "PUT" {
        host.RouterPut(definition, route.handler);
      } else if route.httpMethod == "DELETE" {
        host.RouterDelete(definition, route.handler);
      } else {
        return Thrown(UnknownMethodMessage(route.httpMethod));
      }
      assert RouterLog(wrapped[..i + 1]) == RouterLog(wrapped[..i]) + [DispatchCall(route)];
      i := i + 1;
    }
    assert wrapped[..i] == wrapped;
    host.RegisterRuleType(StatusCheckRule);
    host.RegisterRuleType(TlsCheckRule);
    outcome := Done;
  }

  /** Exact dispatch, in order: the i-th call start-up makes, for every
      route before the first unknown method, goes to the router function
      named by the i-th route's method, with that route's path, validation
      and options as the definition and its handler beside it. */
  lemma ExactDispatch<V, O, H>(routes: seq<Route<V, O, H>>, i: nat)
    requires i < FirstUnknown(routes)
    ensures var call := StartupLog(routes)[i];
      call.RouterCall? && VerbName(call.verb) == routes[i].httpMethod &&
      call.definition == RouteDefinition(routes[i].path, routes[i].validate, routes[i].options) &&
      call.handler == routes[i].handler
  {
  }

  /** When every route dispatches, start-up ends normally having made one
      router call per route followed by exactly two rule registrations, the
      status rule first. */
  lemma AllRoutesThenRules<V, O, H>(routes: seq<Route<V, O, H>>)
    requires forall i :: 0 <= i < |routes| ==> Dispatchable(routes[i])
    ensures StartupOutcome(routes) == Done
    ensures |StartupLog(routes)| == |routes| + 2
    ensures forall i :: 0 <= i < |routes| ==> StartupLog(routes)[i].RouterCall?
    ensures StartupLog(routes)[|routes|..] == [RegisterType(StatusCheckRule), RegisterType(TlsCheckRule)]
  {
  }

  /** An unknown method at index k throws "Handler for method <m> is not
      defined"; the k routes before it stay registered, no later route is
      registered and no rule type is registered. */
  lemma UnknownMethodThrows<V, O, H>(routes: seq<Route<V, O, H>>, k: nat)
    requires k < |routes| && !Dispatchable(routes[k])
    requires forall i :: 0 <= i < k ==> Dispatchable(routes[i])
    ensures StartupOutcome(routes) == Thrown("Handler for method " + routes[k].httpMethod + " is not defined")
    ensures StartupLog(routes) == RouterLog(routes[..k])
    ensures forall c :: c in StartupLog(routes) ==> c.RouterCall?
  {
  }

  /** Rule types are registered if and only if every route dispatched. */
  lemma RulesOnlyAfterRoutes<V, O, H>(routes: seq<Route<V, O, H>>)
    ensures (exists c :: c in StartupLog(routes) && c.RegisterType?) <==>
      forall i :: 0 <= i < |routes| ==> Dispatchable(routes[i])
  {
    var k := FirstUnknown(routes);
    if k == |routes| {
      assert RegisterType(StatusCheckRule) in StartupLog(routes);
    }
  }

  /** What follows the first unknown method has no effect: two route lists
      that agree up to and including it make the same calls and end the
      same way. */
  lemma {:induction false} LaterRoutesIgnored<V, O, H>(prefix: seq<Route<V, O, H>>, bad: Route<V, O, H>,
                                                      rest1: seq<Route<V, O, H>>, rest2: seq<Route<V, O, H>>)
    requires !Dispatchable(bad)
    ensures StartupLog(prefix + [bad] + rest1) == StartupLog(prefix + [bad] + rest2)
    ensures StartupOutcome(prefix + [bad] + rest1) == StartupOutcome(prefix + [bad] + rest2)
  {
    var s1, s2 := prefix + [bad] + rest1, prefix + [bad] + rest2;
    assert s1[|prefix|] == bad && s2[|prefix|] == bad;
    var k := FirstUnknown(s1);
    assert k <= |prefix|;
    assert s1[..k] == s2[..k];
    assert s1[k] == s2[k];
    assert FirstUnknown(s2) == k;
  }

  /** Four routes GET /a, POST /b, PUT /c, DELETE /d: the router receives
      one call on each of its four functions, each with the matching path,
      and then the two rules are registered. */
  lemma FourVerbRoutes<V, O, H>(validate: V, options: O, handler: H)
    ensures var routes := [Route("GET", "/a", validate, options, handler), Route("POST", "/b", validate, options, handler),
                           Route("PUT", "/c", validate, options, handler), Route("DELETE", "/d", validate, options, handler)];
      StartupOutcome(routes) == Done &&
      StartupLog(routes) == [
        RouterCall(Get, RouteDefinition("/a", validate, options), handler),
        RouterCall(Post, RouteDefinition("/b", validate, options), handler),
        RouterCall(Put, RouteDefinition("/c", validate, options), handler),
        RouterCall(Delete, RouteDefinition("/d", validate, options), handler),
        RegisterType(StatusCheckRule), RegisterType(TlsCheckRule)]
  {
  }

  /** A PATCH route fails start-up with its error, after the routes ahead of
      it and before any rule. */
  lemma PatchRouteFails<V, O, H>(validate: V, options: O, handler: H)
    ensures var routes := [Route("GET", "/a", validate, options, handler), Route("PATCH", "/b", validate, options, handler)];
      StartupOutcome(routes) == Thrown("Handler for method PATCH is not defined") &&
      StartupLog(routes) == [RouterCall(Get, RouteDefinition("/a", validate, options), handler)]
  {
    var routes := [Route("GET", "/a", validate, options, handler), Route("PATCH", "/b", validate, options, handler)];
    assert !Dispatchable(routes[1]);
  }
}
