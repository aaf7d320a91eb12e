/** route.go: the Route record. A route is a heap object; the router hands it
    out and the application's registry holds it, and SetBefore/SetAfter edit
    its chains in place and return the same object so calls can be chained. */
module Routes {
  import opened Chains

  class Route {
    /** The full route path, group prefixes included. */
    var path: string
    /** Middlewares run before the controller, in order. */
    var before: MiddlewareChain
    /** The handler that produces the response. */
    var controller: ControllerFn
    /** Middlewares run after the controller, in order. */
    var after: MiddlewareChain

    /** NewRoute: no path, no controller, both chains empty. */
    constructor ()
      ensures path == "" && controller == NilController
      ensures before == [] && after == []
    {
      path := "";
      before := [];
      controller := NilController;
      after := [];
    }

    /** A route literal with every field given (the &Route{...} the router builds). */
    constructor Literal(path: string, before: MiddlewareChain, controller: ControllerFn, after: MiddlewareChain)
      ensures this.path == path && this.before == before
      ensures this.controller == controller && this.after == after
    {
      this.path := path;
      this.before := before;
      this.controller := controller;
      this.after := after;
    }

    /** Appends middlewares to the before chain (the router may already have put some there). */
    method SetBefore(middlewares: MiddlewareChain) returns (r: Route)
      modifies this`before
      ensures r == this
      ensures before == old(before) + middlewares
      ensures path == old(path) && controller == old(controller) && after == old(after)
    {
      before := before + middlewares;
      r := this;
    }

    /** Replaces the after chain by the given middlewares. */
    method SetAfter(middlewares: MiddlewareChain) returns (r: Route)
      modifies this`after
      ensures r == this
      ensures after == middlewares
      ensures path == old(path) && controller == old(controller) && before == old(before)
    {
      after := middlewares;
      r := this;
    }
  }

  /** Two SetBefore calls accumulate both lists, in call order. */
  method SetBeforeTwice(route: Route, first: MiddlewareChain, second: MiddlewareChain)
    modifies route
    ensures route.before == old(route.before) + first + second
    ensures route.after == old(route.after)
  {
    var r := route.SetBefore(first);
    r := r.SetBefore(second);
  }

  /** Two SetAfter calls keep only the last list. */
  method SetAfterTwice(route: Route, first: MiddlewareChain, second: MiddlewareChain)
    modifies route
    ensures route.after == second
    ensures route.before == old(route.before)
  {
    var r := route.SetAfter(first);
    r := r.SetAfter(second);
  }
}
