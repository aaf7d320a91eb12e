/** router.go and kallisto.go: the Router, which turns registrations into
    routes, and the Kallisto application, which holds the route registry, the
    application-scoped store and the service registry. The two refer to each
    other (a router points at its application, the application embeds its root
    router), so they share one module. */
module App {
  import opened Chains
  import opened Paths
  import opened Routes
  import opened Dispatch
  import opened Contexts
  import opened Responses
  import opened PathRouter

  /** A background service (Go: the Runner interface), identified by name. */
  datatype Runner = Runner(name: string)

  /** The part of a router that groups compose: its middlewares and its
      path and name prefixes. */
  datatype Scope = Scope(middlewares: MiddlewareChain, pathPrefix: string, namePrefix: string)

  /** The scope of the application's root router. */
  const RootScope: Scope := Scope([], "", "")

  /** The scope Group hands to its registration function. */
  function GroupScope(parent: Scope, pathPrefix: string, namePrefix: string, middlewares: MiddlewareChain): Scope
  {
    Scope(parent.middlewares + middlewares, Join(parent.pathPrefix, pathPrefix), parent.namePrefix + namePrefix)
  }

  /** A group keeps the parent's middlewares first, in order, and adds its
      own after them; its name prefix extends the parent's. */
  lemma GroupExtendsParent(parent: Scope, pathPrefix: string, namePrefix: string, middlewares: MiddlewareChain)
    ensures var g := GroupScope(parent, pathPrefix, namePrefix, middlewares);
      && |g.middlewares| == |parent.middlewares| + |middlewares|
      && g.middlewares[..|parent.middlewares|] == parent.middlewares
      && g.middlewares[|parent.middlewares|..] == middlewares
      && g.namePrefix[..|parent.namePrefix|] == parent.namePrefix
      && (parent.pathPrefix == "" ==> g.pathPrefix == pathPrefix)
  {
    var g := GroupScope(parent, pathPrefix, namePrefix, middlewares);
    assert g.middlewares == parent.middlewares + middlewares;
  }

  /** Nested groups compose: middlewares and name prefixes accumulate from
      the outermost group inwards. */
  lemma NestedGroups(root: Scope, p1: string, n1: string, m1: MiddlewareChain, p2: string, n2: string, m2: MiddlewareChain)
    ensures var g := GroupScope(GroupScope(root, p1, n1, m1), p2, n2, m2);
      && g.middlewares == root.middlewares + m1 + m2
      && g.namePrefix == root.namePrefix + n1 + n2
      && g.pathPrefix == Join(Join(root.pathPrefix, p1), p2)
  {
  }

  class Router {
    /** Middlewares applied to every route registered afterwards. */
    var middlewares: MiddlewareChain
    /** The application whose registry receives the routes. */
    const kallisto: Kallisto
    /** The external path router, shared by a router and its groups. */
    const mux: Mux
    /** Prepended to every registered path. */
    const pathPrefix: string
    /** Prepended to every registered name. */
    const namePrefix: string

    function AsScope(): Scope
      reads this
    {
      Scope(middlewares, pathPrefix, namePrefix)
    }

    /** NewRouter: no middlewares, empty prefixes, a new path router. */
    constructor (k: Kallisto)
      ensures kallisto == k && fresh(mux)
      ensures AsScope() == RootScope
      ensures mux.handles == [] && mux.notFound == null && mux.panicHandler == null
    {
      middlewares := [];
      kallisto := k;
      mux := new Mux();
      pathPrefix := "";
      namePrefix := "";
    }

    /** The router literal Group builds. */
    constructor Derived(k: Kallisto, mux: Mux, scope: Scope)
      ensures kallisto == k && this.mux == mux && AsScope() == scope
    {
      middlewares := scope.middlewares;
      kallisto := k;
      this.mux := mux;
      pathPrefix := scope.pathPrefix;
      namePrefix := scope.namePrefix;
    }

    /** Replaces the router's middleware set by exactly the given middlewares. */
    method Use(ms: MiddlewareChain)
      modifies this`middlewares
      ensures middlewares == ms
    {
      middlewares := ms;
    }

    /** Builds the router handed to a group's registration function: the
        parent's middlewares followed by the group's, and the prefixes
        extended. It shares the application and the path router. */
    method Group(pathPrefix: string, namePrefix: string, middlewares: MiddlewareChain) returns (sub: Router)
      ensures fresh(sub)
      ensures sub.kallisto == kallisto && sub.mux == mux
      ensures sub.middlewares == this.middlewares + middlewares
      ensures sub.pathPrefix == Join(this.pathPrefix, pathPrefix)
      ensures sub.namePrefix == this.namePrefix + namePrefix
    {
      sub := new Router.Derived(kallisto, mux, GroupScope(AsScope(), pathPrefix, namePrefix, middlewares));
    }

    /** Builds a route (path under the prefix, the router's middlewares as its
        before chain, no after chain, the controller), stores it in the
        application's registry under the prefixed name, replacing only that
        entry, and registers it with the path router. */
    method Handle(verb: string, uri: string, name: string, controller: ControllerFn) returns (route: Route)
      modifies kallisto`routes, mux`handles
      ensures fresh(route)
      ensures route.path == Join(pathPrefix, uri)
      ensures route.before == middlewares && route.after == []
      ensures route.controller == controller
      ensures kallisto.routes == old(kallisto.routes)[namePrefix + name := route]
      ensures forall n :: n != namePrefix + name ==> kallisto.Route(n) == old(kallisto.Route(n))
      ensures kallisto.Route(namePrefix + name) == Join(pathPrefix, uri)
      ensures mux.handles == old(mux.handles) + [Registration(verb, Join(pathPrefix, uri), route)]
    {
      route := new Route.Literal(Join(pathPrefix, uri), middlewares, controller, []);
      kallisto.routes := kallisto.routes[namePrefix + name := route];
      mux.Handle(verb, Join(pathPrefix, uri), route);
    }

    method GET(uri: string, name: string, controller: ControllerFn) returns (route: Route)
      modifies kallisto`routes, mux`handles
      ensures fresh(route) && route.path == Join(pathPrefix, uri)
      ensures route.before == middlewares && route.after == [] && route.controller == controller
      ensures kallisto.routes == old(kallisto.routes)[namePrefix + name := route]
      ensures mux.handles == old(mux.handles) + [Registration("GET", Join(pathPrefix, uri), route)]
    {
      route := Handle("GET", uri, name, controller);
    }

    method POST(uri: string, name: string, controller: ControllerFn) returns (route: Route)
      modifies kallisto`routes, mux`handles
      ensures fresh(route) && route.path == Join(pathPrefix, uri)
      ensures route.before == middlewares && route.after == [] && route.controller == controller
      ensures kallisto.routes == old(kallisto.routes)[namePrefix + name := route]
      ensures mux.handles == old(mux.handles) + [Registration("POST", Join(pathPrefix, uri), route)]
    {
      route := Handle("POST", uri, name, controller);
    }

    method PATCH(uri: string, name: string, controller: ControllerFn) returns (route: Route)
      modifies kallisto`routes, mux`handles
      ensures fresh(route) && route.path == Join(pathPrefix, uri)
      ensures route.before == middlewares && route.after == [] && route.controller == controller
      ensures kallisto.routes == old(kallisto.routes)[namePrefix + name := route]
      ensures mux.handles == old(mux.handles) + [Registration("PATCH", Join(pathPrefix, uri), route)]
    {
      route := Handle("PATCH", uri, name, controller);
    }

    method PUT(uri: string, name: string, controller: ControllerFn) returns (route: Route)
      modifies kallisto`routes, mux`handles
      ensures fresh(route) && route.path == Join(pathPrefix, uri)
      ensures route.before == middlewares && route.after == [] && route.controller == controller
      ensures kallisto.routes == old(kallisto.routes)[namePrefix + name := route]
      ensures mux.handles == old(mux.handles) + [Registration("PUT", Join(pathPrefix, uri), route)]
    {
      route := Handle("PUT", uri, name, controller);
    }

    method DELETE(uri: string, name: string, controller: ControllerFn) returns (route: Route)
      modifies kallisto`routes, mux`handles
      ensures fresh(route) && route.path == Join(pathPrefix, uri)
      ensures route.before == middlewares && route.after == [] && route.controller == controller
      ensures kallisto.routes == old(kallisto.routes)[namePrefix + name := route]
      ensures mux.handles == old(mux.handles) + [Registration("DELETE", Join(pathPrefix, uri), route)]
    {
      route := Handle("DELETE", uri, name, controller);
    }

    method HEAD(uri: string, name: string, controller: ControllerFn) returns (route: Route)
      modifies kallisto`routes, mux`handles
      ensures fresh(route) && route.path == Join(pathPrefix, uri)
      ensures route.before == middlewares && route.after == [] && route.controller == controller
      ensures kallisto.routes == old(kallisto.routes)[namePrefix + name := route]
      ensures mux.handles == old(mux.handles) + [Registration("HEAD", Join(pathPrefix, uri), route)]
    {
      route := Handle("HEAD", uri, name, controller);
    }

    method OPTIONS(uri: string, name: string, controller: ControllerFn) returns (route: Route)
      modifies kallisto`routes, mux`handles
      ensures fresh(route) && route.path == Join(pathPrefix, uri)
      ensures route.before == middlewares && route.after == [] && route.controller == controller
      ensures kallisto.routes == old(kallisto.routes)[namePrefix + name := route]
      ensures mux.handles == old(mux.handles) + [Registration("OPTIONS", Join(pathPrefix, uri), route)]
    {
      route := Handle("OPTIONS", uri, name, controller);
    }

    /** Installs the not-found hook: a new route with empty chains and the
        given controller, not entered in the registry. */
    method NotFound(c: ControllerFn)
      modifies mux`notFound
      ensures mux.notFound != null && fresh(mux.notFound)
      ensures mux.notFound.before == [] && mux.notFound.after == []
      ensures mux.notFound.controller == c
    {
      var route := new Route();
      route.controller := c;
      mux.SetNotFound(route);
    }

    /** Installs the panic hook: a new route with empty chains and the given
        controller, not entered in the registry. */
    method PanicHandler(c: ControllerFn)
      modifies mux`panicHandler
      ensures mux.panicHandler != null && fresh(mux.panicHandler)
      ensures mux.panicHandler.before == [] && mux.panicHandler.after == []
      ensures mux.panicHandler.controller == c
    {
      var route := new Route();
      route.controller := c;
      mux.SetPanicHandler(route);
    }
  }

  /** The handle Handle registers, run on a match: a fresh context and
      response for the route, then one Next, which runs the before chain, the
      controller once and the after chain. */
  method ServeRoute(route: Route) returns (ctx: Context, resp: Response)
    requires |route.before| <= 128 && |route.after| <= 128
    ensures fresh(ctx) && fresh(resp) && ctx.route == route && resp.ctx == ctx
    ensures ctx.trace == Events(route.before) + [Controller(route.controller)] + Events(route.after)
    ensures ctx.Cur() == Done(|route.after|)
    ensures ctx.data == map[]
  {
    ctx := new Context(route);
    resp := new Response(ctx);
    ctx.Next();
    RunFromFresh(route.before, route.controller, route.after);
  }

  /** The not-found hook: status 404 is written before dispatch; on the
      route NotFound installs only the controller runs. */
  method ServeNotFound(route: Route) returns (ctx: Context, resp: Response)
    requires |route.before| <= 128 && |route.after| <= 128
    ensures fresh(ctx) && fresh(resp) && resp.ctx == ctx
    ensures resp.status == 404 && resp.body == ""
    ensures ctx.trace == Events(route.before) + [Controller(route.controller)] + Events(route.after)
    ensures route.before == [] && route.after == [] ==> ctx.trace == [Controller(route.controller)]
  {
    ctx := new Context(route);
    resp := new Response(ctx);
    resp.WriteHeader(404);
    ctx.Next();
    RunFromFresh(route.before, route.controller, route.after);
  }

  /** The panic hook: the panic payload is stored under "PanicStack" in the
      fresh context before dispatch. */
  method ServePanic(route: Route, stack: Value) returns (ctx: Context, resp: Response)
    requires |route.before| <= 128 && |route.after| <= 128
    ensures fresh(ctx) && fresh(resp) && resp.ctx == ctx
    ensures ctx.data == map["PanicStack" := stack]
    ensures ctx.Get("PanicStack") == stack
    ensures ctx.trace == Events(route.before) + [Controller(route.controller)] + Events(route.after)
    ensures route.before == [] && route.after == [] ==> ctx.trace == [Controller(route.controller)]
  {
    ctx := new Context(route);
    resp := new Response(ctx);
    ctx.Set("PanicStack", stack);
    ctx.Next();
    RunFromFresh(route.before, route.controller, route.after);
  }

  class Kallisto {
    /** The root router (Go: the embedded *Router). */
    var router: Router?
    /** Registered routes by name. */
    var routes: map<string, Route>
    /** Application-scoped data. */
    var data: map<string, Value>
    /** Registered services by name. */
    var services: map<string, Runner>

    /** New: empty registries and store, and a root router pointing back at the application. */
    constructor ()
      ensures routes == map[] && data == map[] && services == map[]
      ensures router != null && fresh(router) && router.kallisto == this
      ensures router.AsScope() == RootScope && fresh(router.mux)
    {
      routes := map[];
      data := map[];
      services := map[];
      new;
      router := new Router(this);
    }

    /** Stores an application-scoped value; every other key keeps its value. */
    method Set(key: string, value: Value)
      modifies this`data
      ensures data == old(data)[key := value]
      ensures Get(key) == value
      ensures forall k :: k != key ==> Get(k) == old(Get(k))
    {
      data := data[key := value];
    }

    /** The application-scoped value under key, or nil. */
    function Get(key: string): (v: Value)
      reads this
      ensures key in data ==> v == data[key]
      ensures key !in data ==> v == Nil
    {
      Lookup(data, key)
    }

    /** Registers a service under key; every other key keeps its service. */
    method SetService(key: string, s: Runner)
      modifies this`services
      ensures services == old(services)[key := s]
      ensures Service(key) == Some(s)
      ensures forall k :: k != key ==> Service(k) == old(Service(k))
    {
      services := services[key := s];
    }

    /** The service under key, or nil (None). */
    function Service(key: string): (s: Option<Runner>)
      reads this
      ensures s.Some? <==> key in services
      ensures s.Some? ==> s.value == services[key]
    {
      if key in services then Some(services[key]) else None
    }

    /** The path of the route registered under name, or "" when there is none. */
    function Route(name: string): (p: string)
      reads this, routes.Values
      ensures name in routes ==> p == routes[name].path
      ensures name !in routes ==> p == ""
    {
      if name in routes then routes[name].path else ""
    }

    /** The route registry itself. */
    function Routes(): (m: map<string, Route>)
      reads this
      ensures m == routes
    {
      routes
    }
  }
}

/** Registration and dispatch end to end, as the framework's own tests
    exercise them. */
module Scenarios {
  import opened Chains
  import opened Paths
  import opened Routes
  import opened Dispatch
  import opened Contexts
  import opened Responses
  import opened App

  /** A group "/group" named "group::" with middlewares m1, m2 registers GET
      "get" as "group::get" at "/group/get"; dispatching it runs m1, m2, then
      the controller. */
  method GroupScenario(m1: MiddlewareFn, m2: MiddlewareFn, c: ControllerFn) returns (k: Kallisto, ctx: Context)
    ensures k.Route("group::get") == "/group/get"
    ensures ctx.trace == [Middleware(m1), Middleware(m2), Controller(c)]
  {
    k := new Kallisto();
    var sub := k.router.Group("/group", "group::", [m1, m2]);
    var route := sub.GET("get", "get", c);
    JoinGroupExample();
    assert sub.namePrefix + "get" == "group::get";
    assert k.routes["group::get"] == route;
    assert route.path == "/group/get";
    var resp;
    ctx, resp := ServeRoute(route);
  }

  /** A route with before chain [m1], controller c and after chain [m2]
      runs m1, c, m2 in that order on one Next. */
  method ChainScenario(m1: MiddlewareFn, m2: MiddlewareFn, c: ControllerFn) returns (ctx: Context)
    ensures ctx.trace == [Middleware(m1), Controller(c), Middleware(m2)]
  {
    var route := new Route();
    route := route.SetBefore([m1]);
    route.controller := c;
    route := route.SetAfter([m2]);
    ctx := new Context(route);
    ctx.Next();
    RunFromFresh(route.before, route.controller, route.after);
  }
}
