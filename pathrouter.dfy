/** A stand-in for the external path router (julienschmidt/httprouter) that
    the Router wraps. Matching requests against paths is not modelled; the
    stand-in records what the Router registers with it: one entry per Handle
    call, and the routes behind the not-found and panic hooks. */
module PathRouter {
  import opened Routes

  /** One httprouter.Handle(method, path, handle) call; the handle dispatches route. */
  datatype Registration = Registration(verb: string, path: string, route: Route)

  class Mux {
    /** Registrations in call order. */
    var handles: seq<Registration>
    /** The route the NotFound hook dispatches, once installed. */
    var notFound: Route?
    /** The route the PanicHandler hook dispatches, once installed. */
    var panicHandler: Route?

    /** httprouter.New: nothing registered, no hooks. */
    constructor ()
      ensures handles == [] && notFound == null && panicHandler == null
    {
      handles := [];
      notFound := null;
      panicHandler := null;
    }

    /** Records a registration. */
    method Handle(verb: string, path: string, route: Route)
      modifies this`handles
      ensures handles == old(handles) + [Registration(verb, path, route)]
    {
      handles := handles + [Registration(verb, path, route)];
    }

    /** Installs the not-found hook. */
    method SetNotFound(route: Route)
      modifies this`notFound
      ensures notFound == route
    {
      notFound := route;
    }

    /** Installs the panic hook. */
    method SetPanicHandler(route: Route)
      modifies this`panicHandler
      ensures panicHandler == route
    {
      panicHandler := route;
    }
  }
}
